/** Lease spans: deliveries of one binding that end accepted or skipped were projected one at a time. */
module LeaseSpans {
  import opened Prelude
  import opened Projection
  import opened Deliveries
  import opened LeaseStore
  import opened DeliveryProtocol
  import A = AtMostOnce

  predicate Recorded(stage: Stage) {
    stage.Finishing? || stage.Releasing? || stage.Gone?
  }

  predicate Delivered(d: Delivery) {
    d.Accepted? || d.Skipped?
  }

  predicate Delivers(stage: Stage) {
    stage.Finishing? && Delivered(stage.outcome)
  }

  ghost predicate Tokens(s: State) {
    forall b | b in s.leases ::
      && s.leases[b].token in s.attempts && s.attempts[s.leases[b].token].row in s.rows
      && s.rows[s.attempts[s.leases[b].token].row].binding == b
  }

  ghost predicate Spans(s: State) {
    forall r | r in s.renewals ::
      && r in s.rows && s.renewals[r].from in s.attempts && s.renewals[r].from < s.renewals[r].to < s.now
      && s.attempts[s.renewals[r].from].row == r && s.attempts[s.renewals[r].from].claimed
      && Recorded(s.attempts[s.renewals[r].from].stage)
  }

  ghost predicate Renewed(s: State) {
    && (forall r | r in s.rows && Delivered(s.rows[r].state) :: r in s.renewals)
    && (forall a | a in s.attempts && Delivers(s.attempts[a].stage) :: s.attempts[a].row in s.renewals)
  }

  predicate Apart(x: Span, y: Span) {
    x.to < y.from || y.to < x.from
  }

  /** Spans on one binding do not overlap, and the current lease started after every span but its own. */
  ghost predicate Disjoint(s: State) {
    && (forall r, q | r in s.renewals && q in s.renewals && r in s.rows && q in s.rows && r != q &&
          s.rows[r].binding == s.rows[q].binding :: Apart(s.renewals[r], s.renewals[q]))
    && (forall r | r in s.renewals && r in s.rows && s.rows[r].binding in s.leases ::
          s.renewals[r].from == s.leases[s.rows[r].binding].token ||
          s.renewals[r].to < s.leases[s.rows[r].binding].token)
  }

  ghost predicate Inv(s: State) {
    Tokens(s) && Spans(s) && Renewed(s) && Disjoint(s)
  }

  // ---------------------------------------------------------------------------------------------

  /** No span ends and no lease is taken. */
  ghost predicate SameSpans(s: State, s': State) {
    && s'.now >= s.now && s'.renewals == s.renewals
    && s'.leases.Keys <= s.leases.Keys && (forall b | b in s'.leases :: s'.leases[b].token == s.leases[b].token)
    && (forall r | r in s.rows :: r in s'.rows && s'.rows[r].binding == s.rows[r].binding)
    && (forall a | a in s.attempts :: a in s'.attempts && s'.attempts[a].row == s.attempts[a].row)
  }

  lemma DisjointKept(s: State, s': State)
    requires Tokens(s) && Spans(s) && Disjoint(s) && SameSpans(s, s')
    ensures Disjoint(s') && Tokens(s')
  {
  }

  lemma SpansKept(s: State, s': State, a: nat)
    requires Spans(s) && s'.renewals == s.renewals && A.OnlyAttempt(s, s', a)
    requires Recorded(s.attempts[a].stage) ==>
               Recorded(s'.attempts[a].stage) && s'.attempts[a].claimed == s.attempts[a].claimed
    ensures Spans(s')
  {
  }

  lemma RenewedKept(s: State, s': State, a: nat)
    requires Renewed(s) && s'.renewals == s.renewals && A.OnlyAttempt(s, s', a)
    requires Delivers(s'.attempts[a].stage) ==> Delivers(s.attempts[a].stage)
    requires Delivered(s'.rows[s.attempts[a].row].state) ==>
               Delivered(s.rows[s.attempts[a].row].state) || Delivers(s.attempts[a].stage)
    ensures Renewed(s')
  {
  }

  lemma AttemptKeeps(s: State, s': State, a: nat)
    requires Inv(s) && SameSpans(s, s') && A.OnlyAttempt(s, s', a)
    requires Recorded(s.attempts[a].stage) ==>
               Recorded(s'.attempts[a].stage) && s'.attempts[a].claimed == s.attempts[a].claimed
    requires Delivers(s'.attempts[a].stage) ==> Delivers(s.attempts[a].stage)
    requires Delivered(s'.rows[s.attempts[a].row].state) ==>
               Delivered(s.rows[s.attempts[a].row].state) || Delivers(s.attempts[a].stage)
    ensures Inv(s')
  {
    hide Tokens, Spans, Disjoint, Renewed, SameSpans, A.OnlyAttempt;
    DisjointKept(s, s');
    assert s'.renewals == s.renewals by { SameSpansUnfolded(s, s'); }
    SpansKept(s, s', a);
    RenewedKept(s, s', a);
  }

  lemma SameSpansUnfolded(s: State, s': State)
    requires SameSpans(s, s')
    ensures s'.renewals == s.renewals
  {
  }

  lemma TableKeeps(s: State, s': State)
    requires Inv(s) && SameSpans(s, s') && s'.attempts == s.attempts
    requires forall r | r in s'.rows && Delivered(s'.rows[r].state) :: r in s.rows && Delivered(s.rows[r].state)
    ensures Inv(s')
  {
    hide Tokens, Spans, Disjoint, Renewed, SameSpans;
    DisjointKept(s, s');
    TableKeepsSpans(s, s');
  }

  lemma TableKeepsSpans(s: State, s': State)
    requires Spans(s) && Renewed(s) && SameSpans(s, s') && s'.attempts == s.attempts
    requires forall r | r in s'.rows && Delivered(s'.rows[r].state) :: r in s.rows && Delivered(s.rows[r].state)
    ensures Spans(s') && Renewed(s')
  {
  }

  lemma AcquireKeeps(s: State, r: nat)
    requires Inv(s) && Enabled(s, Acquire(r))
    ensures Inv(Next(s, Acquire(r)))
  {
    hide Enabled, Next, Tokens, Spans, Renewed, Disjoint;
    AcquireKeepsTokens(s, r);
    AcquireKeepsSpans(s, r);
    AcquireKeepsDisjoint(s, r);
  }

  lemma AcquireKeepsTokens(s: State, r: nat)
    requires Tokens(s) && Renewed(s) && Enabled(s, Acquire(r))
    ensures Tokens(Next(s, Acquire(r))) && Renewed(Next(s, Acquire(r)))
  {
  }

  lemma AcquireKeepsSpans(s: State, r: nat)
    requires Spans(s) && Tokens(s) && Enabled(s, Acquire(r))
    ensures Spans(Next(s, Acquire(r)))
  {
  }

  lemma AcquireKeepsDisjoint(s: State, r: nat)
    requires Disjoint(s) && Tokens(s) && Spans(s) && Enabled(s, Acquire(r))
    ensures Disjoint(Next(s, Acquire(r)))
  {
    hide Disjoint, Spans, Tokens;
    NewLeaseIsDisjoint(s, Next(s, Acquire(r)), s.rows[r].binding);
  }

  lemma NewLeaseIsDisjoint(s: State, s': State, b: nat)
    requires Disjoint(s) && Spans(s) && s'.rows == s.rows && s'.renewals == s.renewals
    requires s'.leases == Granted(s.leases, b, s.now, s.clock, LEASE_TTL_MS)
    ensures Disjoint(s')
  {
    forall q | q in s'.renewals && q in s'.rows && s'.rows[q].binding in s'.leases
      ensures s'.renewals[q].from == s'.leases[s'.rows[q].binding].token ||
              s'.renewals[q].to < s'.leases[s'.rows[q].binding].token
    {
    }
  }

  /** Every other span on the binding whose lease `a` holds ended before `a` took it. */
  lemma OthersEnded(s: State, a: nat, q: nat)
    requires Inv(s) && A.Owned(s.rows, s.attempts)
    requires a in s.attempts && s.attempts[a].stage.Renewing? && s.attempts[a].claimed && s.attempts[a].row in s.rows
    requires Leases(s, a) && q in s.renewals && s.rows[q].binding == s.rows[s.attempts[a].row].binding
    ensures q != s.attempts[a].row && s.renewals[q].to < a
  {
    assert s.renewals[q].from != a;
  }

  ghost predicate Leases(s: State, a: nat)
    requires a in s.attempts && s.attempts[a].row in s.rows
  {
    s.rows[s.attempts[a].row].binding in s.leases && s.leases[s.rows[s.attempts[a].row].binding].token == a
  }

  /** The state `s'` in which `a`, holding its lease, has just closed its span. */
  ghost predicate Closes(s: State, s': State, a: nat) {
    && A.OnlyAttempt(s, s', a) && s'.rows == s.rows && s'.now == s.now + 1 && a < s.now
    && s'.attempts[a].claimed && Recorded(s'.attempts[a].stage) && Leases(s, a)
    && s'.leases.Keys == s.leases.Keys && (forall b | b in s.leases :: s'.leases[b].token == s.leases[b].token)
    && s'.renewals == s.renewals[s.attempts[a].row := Span(a, s.now)]
  }

  lemma CloseKeepsDisjoint(s: State, s': State, a: nat)
    requires Spans(s) && Disjoint(s) && Closes(s, s', a)
    requires forall q | q in s.renewals && s.rows[q].binding == s.rows[s.attempts[a].row].binding ::
               q != s.attempts[a].row && s.renewals[q].to < a
    ensures Disjoint(s')
  {
  }

  lemma CloseKeepsRest(s: State, s': State, a: nat)
    requires Tokens(s) && Spans(s) && Renewed(s) && Closes(s, s', a)
    ensures Tokens(s') && Spans(s') && Renewed(s')
  {
  }

  /** A renewal that finds its own token closes a span disjoint from every other one on the binding. */
  lemma SpanEnds(s: State, s': State, a: nat)
    requires A.Inv(s) && Inv(s) && Closes(s, s', a)
    requires s.attempts[a].stage.Renewing? && s.attempts[a].claimed
    ensures Inv(s')
  {
    hide A.Typed, A.Owned, A.Logged, Tokens, Renewed, Disjoint;
    forall q | q in s.renewals && s.rows[q].binding == s.rows[s.attempts[a].row].binding
      ensures q != s.attempts[a].row && s.renewals[q].to < a
    {
      OthersEnded(s, a, q);
    }
    CloseKeepsDisjoint(s, s', a);
    CloseKeepsRest(s, s', a);
  }

  lemma RenewKeeps(s: State, a: nat, failed: bool)
    requires A.Inv(s) && Inv(s) && Enabled(s, Renew(a, failed))
    ensures Inv(Next(s, Renew(a, failed)))
  {
    hide A.Inv, Inv;
    var s' := Next(s, Renew(a, failed));
    A.OwnedAt(s, a);
    if failed || s.attempts[a].lapsed || !Holds(s, a, BindingOf(s, a)) {
      AttemptKeeps(s, s', a);
    } else {
      SpanEnds(s, s', a);
    }
  }

  lemma AwaitKeeps(s: State, a: nat, reply: SlackReply)
    requires A.Inv(s) && Inv(s) && Enabled(s, Await(a, reply))
    ensures Inv(Next(s, Await(a, reply)))
  {
    hide A.Inv, Inv, Effect;
    A.AwaitFrame(s, a, reply);
    A.OwnedAt(s, a);
    AttemptKeeps(s, Next(s, Await(a, reply)), a);
  }

  lemma ClaimKeeps(s: State, a: nat, won: bool)
    requires A.Inv(s) && Inv(s) && Enabled(s, Claim(a, won))
    ensures Inv(Next(s, Claim(a, won)))
  {
    hide A.Inv, Inv;
    A.StartFits(s.bindings[BindingOf(s, a)].place, RowOf(s, a).msg);
    AttemptKeeps(s, Next(s, Claim(a, won)), a);
  }

  lemma ClaimFailedKeeps(s: State, a: nat, landed: bool)
    requires A.Inv(s) && Inv(s) && Enabled(s, ClaimFailed(a, landed))
    ensures Inv(Next(s, ClaimFailed(a, landed)))
  {
    hide A.Inv, Inv;
    AttemptKeeps(s, Next(s, ClaimFailed(a, landed)), a);
  }

  lemma StoreFailedKeeps(s: State, a: nat, landed: bool)
    requires A.Inv(s) && Inv(s) && Enabled(s, StoreFailed(a, landed))
    ensures Inv(Next(s, StoreFailed(a, landed)))
  {
    hide A.Inv, Inv;
    A.StoreFrame(s, a, CallOf(RowOf(s, a).msg, s.attempts[a].stage.phase));
    AttemptKeeps(s, Next(s, StoreFailed(a, landed)), a);
  }

  lemma FinishKeeps(s: State, e: Event)
    requires A.Inv(s) && Inv(s) && Enabled(s, e) && (e.Finish? || e.FinishFailed?)
    ensures Inv(Next(s, e))
  {
    hide A.Inv, Inv;
    AttemptKeeps(s, Next(s, e), e.attempt);
  }

  lemma RescheduleKeeps(s: State, a: nat, landed: bool)
    requires A.Inv(s) && Inv(s) && Enabled(s, Reschedule(a, landed))
    ensures Inv(Next(s, Reschedule(a, landed)))
  {
    hide A.Inv, Inv;
    AttemptKeeps(s, Next(s, Reschedule(a, landed)), a);
  }

  lemma HeartbeatKeeps(s: State, a: nat, failed: bool)
    requires Inv(s) && Enabled(s, Heartbeat(a, failed))
    ensures Inv(Next(s, Heartbeat(a, failed)))
  {
    hide Inv;
    AttemptKeeps(s, Next(s, Heartbeat(a, failed)), a);
  }

  lemma GoneKeeps(s: State, e: Event)
    requires Inv(s) && Enabled(s, e) && (e.Release? || e.Crash?)
    ensures Inv(Next(s, e))
  {
    hide Inv;
    AttemptKeeps(s, Next(s, e), e.attempt);
  }

  lemma StepKeeps(s: State, e: Event)
    requires A.Inv(s) && Inv(s) && Enabled(s, e)
    ensures Inv(Next(s, e))
  {
    hide A.Inv, Inv;
    match e
    case Acquire(r) => AcquireKeeps(s, r);
    case Renew(a, failed) => RenewKeeps(s, a, failed);
    case Await(a, reply) => AwaitKeeps(s, a, reply);
    case Claim(a, won) => ClaimKeeps(s, a, won);
    case ClaimFailed(a, landed) => ClaimFailedKeeps(s, a, landed);
    case StoreFailed(a, landed) => StoreFailedKeeps(s, a, landed);
    case Finish(_) => FinishKeeps(s, e);
    case FinishFailed(_, _) => FinishKeeps(s, e);
    case Reschedule(a, landed) => RescheduleKeeps(s, a, landed);
    case Heartbeat(a, failed) => HeartbeatKeeps(s, a, failed);
    case Release(_) => GoneKeeps(s, e);
    case Crash(_) => GoneKeeps(s, e);
    case _ => TableKeeps(s, Next(s, e));
  }

  lemma {:induction false} RunKeeps(events: seq<Event>)
    requires Possible(events)
    ensures A.Inv(After(events)) && Inv(After(events))
    decreases |events|
  {
    A.RunKeeps(events);
    if events != [] {
      var n := |events| - 1;
      RunKeeps(events[..n]);
      StepKeeps(After(events[..n]), events[n]);
    }
  }

  // ---------------------------------------------------------------------------------------------
  // Results

  /** `a` took the lease of row `r`'s binding at event `from`, held it ever since and renewed it at event `to`. */
  ghost predicate HeldOver(events: seq<Event>, r: nat, b: nat, span: Span) {
    && span.from < span.to < |events| && events[span.from] == Acquire(r) && events[span.to] == Renew(span.from, false)
    && forall k | span.from < k <= span.to + 1 :: Possible(events[..k]) && Holds(After(events[..k]), span.from, b)
  }

  lemma NothingYet()
    ensures Possible([]) && After([]) == INITIAL
  {
  }

  /** Attempts are named by the event that took their lease, and the events count themselves. */
  lemma {:induction false} AttemptsAreAcquired(events: seq<Event>)
    requires Possible(events)
    ensures After(events).now == |events|
    ensures forall a | a in After(events).attempts ::
              a < |events| && events[a] == Acquire(After(events).attempts[a].row)
    decreases |events|
  {
    hide Next, Enabled, Effect, Possible, After;
    if events == [] {
      assert After(events) == INITIAL by { NothingYet(); }
    } else {
      var n := |events| - 1;
      LastStep(events);
      var s := After(events[..n]);
      AttemptsAreAcquired(events[..n]);
      forall a | a in After(events).attempts
        ensures a < |events| && events[a] == Acquire(After(events).attempts[a].row)
      {
        AttemptStep(s, events[n], a);
      }
      NowCounts(s, events[n]);
    }
  }

  lemma NowCounts(s: State, e: Event)
    requires Enabled(s, e)
    ensures Next(s, e).now == s.now + 1
  {
  }

  /** An attempt keeps its row, and a new one comes from an acquired lease. */
  lemma AttemptStep(s: State, e: Event, a: nat)
    requires Enabled(s, e) && a in Next(s, e).attempts
    ensures a !in s.attempts ==> a == s.now && e == Acquire(Next(s, e).attempts[a].row)
    ensures a in s.attempts ==> Next(s, e).attempts[a].row == s.attempts[a].row
  {
    hide AwaitStep, StoreFailedStep, Start, StageAfter, CallOf, Fits, Holds, LeaseStore.Renewed, LeaseStore.Released;
    if e.Await? {
      A.AwaitFrame(s, e.attempt, e.reply);
    } else if e.StoreFailed? {
      A.StoreFailedMoves(s, e.attempt, e.landed);
    }
  }

  /** Only the final renewal of an attempt that holds its lease closes a span. */
  lemma SpanCloses(s: State, e: Event, r: nat)
    requires Enabled(s, e) && r in Next(s, e).renewals
    ensures (r in s.renewals && Next(s, e).renewals[r] == s.renewals[r]) ||
            (&& e.Renew? && !e.failed && Present(s, e.attempt) && s.attempts[e.attempt].row == r && Next(s, e).renewals[r] == Span(e.attempt, s.now)
             && !s.attempts[e.attempt].lapsed && Holds(Next(s, e), e.attempt, BindingOf(s, e.attempt)))
  {
    hide AwaitStep;
    if e.Await? {
      A.AwaitFrame(s, e.attempt, e.reply);
    } else if e.StoreFailed? {
      A.StoreFrame(s, e.attempt, CallOf(RowOf(s, e.attempt).msg, s.attempts[e.attempt].stage.phase));
    }
  }

  /** Every recorded span is a stretch of the run over which its attempt held the lease. */
  lemma {:induction false} SpansAreHeld(events: seq<Event>, r: nat)
    requires Possible(events) && r in After(events).renewals
    ensures r in After(events).rows && HeldOver(events, r, After(events).rows[r].binding, After(events).renewals[r])
    decreases |events|
  {
    hide Next, Enabled, Effect, Possible, After, HeldOver, Inv, A.Inv;
    if events == [] {
      NothingYet();
      return;
    }
    LastStep(events);
    var n := |events| - 1;
    var s := After(events[..n]);
    RunKeeps(events);
    A.RunKeeps(events);
    SpanCloses(s, events[n], r);
    if r in s.renewals && After(events).renewals[r] == s.renewals[r] {
      RenewedInRows(events[..n], r);
      SpansAreHeld(events[..n], r);
      RowStays(s, events[n], r);
      HeldOverLonger(events, r, s.rows[r].binding, s.renewals[r]);
    } else {
      HeldSinceAcquired(events, r);
    }
  }

  lemma RowStays(s: State, e: Event, r: nat)
    requires Enabled(s, e) && r in s.rows
    ensures r in Next(s, e).rows && Next(s, e).rows[r].binding == s.rows[r].binding
  {
    hide AwaitStep;
    if e.Await? {
      A.AwaitFrame(s, e.attempt, e.reply);
    } else if e.StoreFailed? {
      A.StoreFrame(s, e.attempt, CallOf(RowOf(s, e.attempt).msg, s.attempts[e.attempt].stage.phase));
    }
  }

  lemma RenewedInRows(events: seq<Event>, r: nat)
    requires Possible(events) && r in After(events).renewals
    ensures r in After(events).rows
  {
    RunKeeps(events);
  }

  lemma HeldOverLonger(events: seq<Event>, r: nat, b: nat, span: Span)
    requires events != [] && HeldOver(events[..|events| - 1], r, b, span)
    ensures HeldOver(events, r, b, span)
  {
    forall k | span.from < k <= span.to + 1 ensures Possible(events[..k]) && Holds(After(events[..k]), span.from, b) {
      assert events[..|events| - 1][..k] == events[..k];
    }
  }

  /** The span that the last event closed. */
  lemma HeldSinceAcquired(events: seq<Event>, r: nat)
    requires Possible(events) && events != [] && Inv(After(events)) && A.Inv(After(events))
    requires var n := |events| - 1; var s := After(events[..n]); var e := events[n];
             && e.Renew? && !e.failed && e.attempt in s.attempts && Present(s, e.attempt) && s.attempts[e.attempt].row == r
             && r in After(events).renewals && After(events).renewals[r] == Span(e.attempt, s.now)
             && Holds(After(events), e.attempt, BindingOf(s, e.attempt))
    ensures r in After(events).rows && HeldOver(events, r, After(events).rows[r].binding, After(events).renewals[r])
  {
    hide Next, Enabled, Effect, Possible, After, Inv, A.Inv;
    LastStep(events);
    var n := |events| - 1;
    var s, a := After(events[..n]), events[n].attempt;
    var b := BindingOf(s, a);
    AttemptsAreAcquired(events[..n]);
    RowStays(s, events[n], r);
    forall k | a < k <= n + 1 ensures Possible(events[..k]) && Holds(After(events[..k]), a, b) {
      if k <= n {
        TakenBy(events[..n], k, a);
        assert events[..n][..k] == events[..k];
      }
      HeldThroughout(events, k, a, b);
      assert events[..n + 1] == events;
    }
  }

  /** An attempt exists from the event that took its lease on. */
  lemma {:induction false} TakenBy(events: seq<Event>, k: nat, a: nat)
    requires Possible(events) && a in After(events).attempts && a < k <= |events|
    ensures Possible(events[..k]) && a in After(events[..k]).attempts
    decreases |events|
  {
    hide Next, Enabled, Effect, Possible, After;
    if k == |events| {
      assert events[..k] == events;
    } else {
      var n := |events| - 1;
      LastStep(events);
      AttemptsAreAcquired(events[..n]);
      AttemptStep(After(events[..n]), events[n], a);
      TakenBy(events[..n], k, a);
      assert events[..n][..k] == events[..k];
    }
  }

  /** A lease that is taken or renewed lasts a minute, whatever happens, unless its holder gives it back. */
  lemma {:induction false} LastsAMinute(events: seq<Event>, k: nat, a: nat, b: nat)
    requires Possible(events) && 0 < k <= |events| && Release(a) !in events[k..]
    requires Possible(events[..k - 1]) && Extends(After(events[..k - 1]), events[k - 1], a, b)
    requires Possible(events[..k]) && After(events).clock < After(events[..k]).clock + 60_000
    ensures Holds(After(events), a, b) && After(events).clock >= After(events[..k]).clock
    ensures After(events).leases[b].deadline >= After(events[..k]).clock + 60_000
    decreases |events|
  {
    hide Next, Enabled, Effect, Possible, After;
    if k == |events| {
      assert events[..k] == events && events[..|events| - 1] == events[..k - 1];
      LastStep(events);
      ExtendsAMinute(After(events[..k - 1]), events[k - 1], a, b);
    } else {
      var n := |events| - 1;
      LastStep(events);
      assert events[..n][..k] == events[..k] && events[..n][..k - 1] == events[..k - 1];
      assert events[k..] == events[..n][k..] + [events[n]];
      ClockAdvances(After(events[..n]), events[n]);
      LastsAMinute(events[..n], k, a, b);
      LeaseOutlasts(After(events[..n]), events[n], a, b);
    }
  }

  /** The event gives `a` the lease of `b` or renews it. */
  ghost predicate Extends(s: State, e: Event, a: nat, b: nat) {
    && Enabled(s, e)
    && match e
       case Acquire(r) => a == s.now && s.rows[r].binding == b
       case Heartbeat(c, failed) => c == a && !failed && BindingOf(s, a) == b && Holds(s, a, b)
       case Renew(c, failed) => c == a && !failed && !s.attempts[a].lapsed && BindingOf(s, a) == b && Holds(s, a, b)
       case _ => false
  }

  lemma ExtendsAMinute(s: State, e: Event, a: nat, b: nat)
    requires Extends(s, e, a, b)
    ensures Holds(Next(s, e), a, b) && Next(s, e).leases[b].deadline == Next(s, e).clock + 60_000
  {
  }

  lemma ClockAdvances(s: State, e: Event)
    requires Enabled(s, e)
    ensures Next(s, e).clock >= s.clock
  {
    hide AwaitStep, ServeStore, Start, StageAfter;
    if e.Await? {
      A.AwaitFrame(s, e.attempt, e.reply);
    } else if e.StoreFailed? {
      A.StoreFrame(s, e.attempt, CallOf(RowOf(s, e.attempt).msg, s.attempts[e.attempt].stage.phase));
    }
  }

  lemma LeaseOutlasts(s: State, e: Event, a: nat, b: nat)
    requires Enabled(s, e) && e != Release(a) && Holds(s, a, b) && Next(s, e).clock < s.leases[b].deadline
    ensures Holds(Next(s, e), a, b)
    ensures Next(s, e).leases[b].deadline == s.leases[b].deadline || Next(s, e).leases[b].deadline == s.clock + 60_000
  {
    hide AwaitStep, ServeStore, Start, StageAfter;
    if e.Await? {
      A.AwaitFrame(s, e.attempt, e.reply);
    } else if e.StoreFailed? {
      A.StoreFrame(s, e.attempt, CallOf(RowOf(s, e.attempt).msg, s.attempts[e.attempt].stage.phase));
    }
  }

  // ---------------------------------------------------------------------------------------------
  // A heartbeat that fails

  /** At event `k` a heartbeat of `a` threw, or found that the lease was no longer its own. */
  ghost predicate MissesBeat(events: seq<Event>, k: nat, a: nat) {
    && k < |events| && events[k].Heartbeat? && events[k].attempt == a && Possible(events[..k])
    && Present(After(events[..k]), a)
    && (events[k].failed || !Holds(After(events[..k]), a, BindingOf(After(events[..k]), a)))
  }

  lemma MissedBeatLapses(s: State, e: Event)
    requires Enabled(s, e) && e.Heartbeat? && (e.failed || !Holds(s, e.attempt, BindingOf(s, e.attempt)))
    ensures Next(s, e).attempts[e.attempt].lapsed
  {
  }

  lemma LapsedStays(s: State, e: Event, a: nat)
    requires Enabled(s, e) && a in s.attempts && a < s.now && s.attempts[a].lapsed
    ensures a in Next(s, e).attempts && Next(s, e).attempts[a].lapsed
  {
    hide AwaitStep, ServeStore, Start, StageAfter, LeaseStore.Renewed, LeaseStore.Released;
    if e.Await? {
      A.AwaitFrame(s, e.attempt, e.reply);
    } else if e.StoreFailed? {
      A.StoreFrame(s, e.attempt, CallOf(RowOf(s, e.attempt).msg, s.attempts[e.attempt].stage.phase));
    }
  }

  lemma {:induction false} MissedBeatIsRemembered(events: seq<Event>, k: nat, a: nat)
    requires Possible(events) && MissesBeat(events, k, a)
    ensures a in After(events).attempts && After(events).attempts[a].lapsed
    decreases |events|
  {
    hide Next, Enabled, Effect, Possible, After, Holds;
    var n := |events| - 1;
    LastStep(events);
    var s := After(events[..n]);
    if k == n {
      MissedBeatLapses(s, events[n]);
      AttemptsStay(s, events[n], a);
    } else {
      assert events[..n][..k] == events[..k];
      MissedBeatIsRemembered(events[..n], k, a);
      AttemptsAreAcquired(events[..n]);
      LapsedStays(s, events[n], a);
    }
  }

  /** A span that ended by event `k` was there then, and no event before its end put it there. */
  lemma {:induction false} SpanSince(events: seq<Event>, k: nat, r: nat)
    requires Possible(events) && k <= |events| && r in After(events).renewals
    ensures Possible(events[..k])
    ensures After(events).renewals[r].to < k ==>
              r in After(events[..k]).renewals && After(events[..k]).renewals[r] == After(events).renewals[r]
    decreases |events|
  {
    hide Next, Enabled, Effect, Possible, After, Holds;
    if k == |events| {
      assert events[..k] == events;
    } else {
      var n := |events| - 1;
      LastStep(events);
      assert events[..n][..k] == events[..k];
      AttemptsAreAcquired(events[..n]);
      SpanCloses(After(events[..n]), events[n], r);
      if r in After(events[..n]).renewals {
        SpanSince(events[..n], k, r);
      } else {
        PrefixPossible(events[..n], k);
      }
    }
  }

  lemma {:induction false} PrefixPossible(events: seq<Event>, k: nat)
    requires Possible(events) && k <= |events|
    ensures Possible(events[..k])
    decreases |events|
  {
    if k == |events| {
      assert events[..k] == events;
    } else {
      PrefixPossible(events[..|events| - 1], k);
      assert events[..|events| - 1][..k] == events[..k];
    }
  }

  /**
   Once a heartbeat failed or came too late, its attempt closes no span any more: every final renewal of it
   came before, also if the lease is still, or again, its own afterwards.
   */
  lemma {:induction false} MissedBeatClosesNoSpan(events: seq<Event>, k: nat, a: nat, r: nat)
    requires Possible(events) && MissesBeat(events, k, a)
    requires r in After(events).renewals && After(events).renewals[r].from == a
    ensures After(events).renewals[r].to < k
    decreases |events|
  {
    hide Next, Enabled, Effect, Possible, After, Holds;
    var n := |events| - 1;
    LastStep(events);
    var s := After(events[..n]);
    AttemptsAreAcquired(events[..n]);
    SpanCloses(s, events[n], r);
    if r in s.renewals && After(events).renewals[r] == s.renewals[r] {
      SpanEndsBefore(events[..n], r);
      if k < n {
        assert events[..n][..k] == events[..k];
        MissedBeatClosesNoSpan(events[..n], k, a, r);
      }
    } else if k < n {
      assert events[..n][..k] == events[..k];
      MissedBeatIsRemembered(events[..n], k, a);
      assert false;
    }
  }

  lemma SpanEndsBefore(events: seq<Event>, r: nat)
    requires Possible(events) && r in After(events).renewals
    ensures After(events).renewals[r].to < |events|
  {
    RunKeeps(events);
    AttemptsAreAcquired(events);
  }

  /**
   An attempt that misses a heartbeat before its final renewal never gets its row recorded as accepted or
   skipped, however the lease stands later: only an attempt that takes the row up anew can.
   */
  lemma MissedBeatIsNeverDelivered(events: seq<Event>, k: nat, a: nat)
    requires Possible(events) && MissesBeat(events, k, a) && a in After(events).attempts
    requires After(events[..k]).attempts[a].row !in After(events[..k]).renewals
    requires After(events).attempts[a].claimed
    ensures var r := After(events).attempts[a].row;
      r in After(events).rows && !Delivered(After(events).rows[r].state)
  {
    hide Next, Enabled, Effect, Possible, After, Holds, A.Typed, A.Logged, Tokens, Disjoint;
    var s, r := After(events), After(events).attempts[a].row;
    RunKeeps(events);
    A.OwnedAt(s, a);
    RowOfAttemptStays(events, k, a);
    if Delivered(s.rows[r].state) {
      assert s.renewals[r].from == a;
      MissedBeatClosesNoSpan(events, k, a, r);
      SpanSince(events, k, r);
    }
  }

  lemma {:induction false} RowOfAttemptStays(events: seq<Event>, k: nat, a: nat)
    requires Possible(events) && k <= |events| && Possible(events[..k]) && a in After(events[..k]).attempts
    ensures a in After(events).attempts && After(events).attempts[a].row == After(events[..k]).attempts[a].row
    decreases |events|
  {
    hide Next, Enabled, Effect, Possible, After;
    if k == |events| {
      assert events[..k] == events;
    } else {
      var n := |events| - 1;
      LastStep(events);
      assert events[..n][..k] == events[..k];
      RowOfAttemptStays(events[..n], k, a);
      AttemptsStay(After(events[..n]), events[n], a);
      AttemptStep(After(events[..n]), events[n], a);
    }
  }

  /**
   Two deliveries of one binding that Slack acknowledged held the lease, without a break, over disjoint
   stretches of the run, each from the event that took it to the final renewal.
   */
  lemma DeliveredSpansAreDisjoint(events: seq<Event>, r: nat, q: nat)
    requires Possible(events) && r != q
    requires r in After(events).rows && q in After(events).rows
    requires After(events).rows[r].binding == After(events).rows[q].binding
    requires Delivered(After(events).rows[r].state) && Delivered(After(events).rows[q].state)
    ensures var s := After(events);
            && r in s.renewals && q in s.renewals && Apart(s.renewals[r], s.renewals[q])
            && HeldOver(events, r, s.rows[r].binding, s.renewals[r])
            && HeldOver(events, q, s.rows[q].binding, s.renewals[q])
  {
    RunKeeps(events);
    SpansAreHeld(events, r);
    SpansAreHeld(events, q);
  }

  /**
   The lease of a binding changes in two ways only: it goes from free to a token no attempt had before,
   or its live holder renews it or gives it back. Crashes, sweeps and other attempts leave it alone.
   */
  lemma LeaseChangesByItsHolder(s: State, e: Event, b: nat)
    requires A.Typed(s) && Enabled(s, e)
    requires b in Next(s, e).leases && b in s.leases ==> Next(s, e).leases[b] != s.leases[b]
    requires b in s.leases || b in Next(s, e).leases
    ensures e.Acquire? || e.Heartbeat? || e.Renew? || e.Release?
    ensures e.Acquire? ==>
              && IsFree(s.leases, b, s.clock) && s.now !in s.attempts && s.rows[e.row].binding == b
              && Holds(Next(s, e), s.now, b)
    ensures e.Heartbeat? || e.Renew? ==>
              Holds(s, e.attempt, b) && BindingOf(s, e.attempt) == b && Holds(Next(s, e), e.attempt, b)
    ensures e.Release? ==> Holds(s, e.attempt, b) && BindingOf(s, e.attempt) == b && b !in Next(s, e).leases
  {
    if !e.Acquire? && !e.Heartbeat? && !e.Renew? && !e.Release? {
      LeasesUntouched(s, e);
    }
    hide AwaitStep, ClaimStep, ClaimFailedStep, StoreFailedStep, FinishFailedStep, RescheduleStep, ServeStore, Fits;
  }

  lemma LeasesUntouched(s: State, e: Event)
    requires Enabled(s, e) && !e.Acquire? && !e.Heartbeat? && !e.Renew? && !e.Release?
    ensures Next(s, e).leases == s.leases
  {
    if e.Await? {
      A.AwaitFrame(s, e.attempt, e.reply);
    } else if e.StoreFailed? {
      A.StoreFrame(s, e.attempt, CallOf(RowOf(s, e.attempt).msg, s.attempts[e.attempt].stage.phase));
    }
    hide ServeStore, Fits;
  }

  lemma LostForGood(s: State, e: Event, a: nat, b: nat)
    requires Enabled(s, e) && a in s.attempts && !Holds(s, a, b)
    ensures a in Next(s, e).attempts && !Holds(Next(s, e), a, b)
  {
    hide Next, Enabled;
    if e.Await? {
      A.AwaitFrame(s, e.attempt, e.reply);
    } else {
      NothingElseRegains(s, e, a, b);
    }
  }

  lemma NothingElseRegains(s: State, e: Event, a: nat, b: nat)
    requires Enabled(s, e) && !e.Await? && a in s.attempts && !Holds(s, a, b)
    ensures a in Next(s, e).attempts && !Holds(Next(s, e), a, b)
  {
    if e.StoreFailed? {
      A.StoreFrame(s, e.attempt, CallOf(RowOf(s, e.attempt).msg, s.attempts[e.attempt].stage.phase));
    }
    hide AwaitStep, Start, Resume, ServeStore;
  }

  /** An attempt that holds its lease now has held it, unexpired, at every moment since it took it. */
  lemma {:induction false} HeldThroughout(events: seq<Event>, k: nat, a: nat, b: nat)
    requires Possible(events) && k <= |events|
    ensures Possible(events[..k])
    ensures a in After(events[..k]).attempts ==> a in After(events).attempts
    ensures a in After(events[..k]).attempts && Holds(After(events), a, b) ==> Holds(After(events[..k]), a, b)
    decreases |events|
  {
    if k == |events| {
      assert events[..k] == events;
    } else {
      var n := |events| - 1;
      HeldThroughout(events[..n], k, a, b);
      assert events[..n][..k] == events[..k];
      if a in After(events[..k]).attempts && !Holds(After(events[..n]), a, b) {
        LostForGood(After(events[..n]), events[n], a, b);
      } else if a in After(events[..k]).attempts {
        AttemptsStay(After(events[..n]), events[n], a);
      }
    }
  }

  lemma AttemptsStay(s: State, e: Event, a: nat)
    requires Enabled(s, e) && a in s.attempts
    ensures a in Next(s, e).attempts
  {
    if e.Await? {
      A.AwaitFrame(s, e.attempt, e.reply);
    } else if e.StoreFailed? {
      A.StoreFrame(s, e.attempt, CallOf(RowOf(s, e.attempt).msg, s.attempts[e.attempt].stage.phase));
    }
  }

  /** A lease held by `a` ends only because time passes or because `a` itself releases it. */
  lemma OnlyTheHolderReleases(s: State, e: Event, a: nat, b: nat)
    requires Enabled(s, e) && Holds(s, a, b) && !Holds(Next(s, e), a, b)
    ensures e.Pass? || e == Release(a)
  {
    if e.Await? {
      A.AwaitFrame(s, e.attempt, e.reply);
    } else if e.StoreFailed? {
      A.StoreFrame(s, e.attempt, CallOf(RowOf(s, e.attempt).msg, s.attempts[e.attempt].stage.phase));
    }
  }
}
