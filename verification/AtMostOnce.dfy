/** Row ownership: at most one attempt owns a delivery, and Slack accepts at most one post for it. */
module AtMostOnce {
  import opened Prelude
  import opened Projection
  import opened Deliveries
  import opened LeaseStore
  import opened DeliveryProtocol

  /** Stages an attempt reaches only by winning its claim, and leaves before the row is terminal. */
  predicate Pending(stage: Stage) {
    stage.Applying? || stage.Renewing? || stage.Retrying? || (stage.Finishing? && !stage.outcome.Uncertain?)
  }

  /** Stages an attempt may be at once Slack accepted its post: no further Slack call follows. */
  predicate AfterPost(stage: Stage) {
    match stage
    case Applying(p) => p.AdvanceCreated? || p.SetWorking?
    case Renewing(result) => !result.skipped && (result.operation.Posted? || result.operation.Composite?)
    case Finishing(_) => true
    case Releasing => true
    case Gone => true
    case _ => false
  }

  ghost predicate Typed(s: State) {
    && (forall r | r in s.rows :: s.rows[r].binding in s.bindings)
    && (forall a | a in s.attempts :: a < s.now && s.attempts[a].row in s.rows)
    && (forall a | a in s.attempts && s.attempts[a].stage.Applying? ::
          Fits(s.rows[s.attempts[a].row].msg, s.attempts[a].stage.phase))
  }

  ghost predicate Owned(rows: map<nat, Row>, attempts: map<nat, Attempt>) {
    && (forall a | a in attempts && attempts[a].claimed ::
          attempts[a].row in rows && !rows[attempts[a].row].state.Queued?)
    && (forall a, c | a in attempts && c in attempts && attempts[a].claimed && attempts[c].claimed &&
          attempts[a].row == attempts[c].row :: a == c)
    && (forall a | a in attempts && Pending(attempts[a].stage) ::
          attempts[a].claimed && attempts[a].row in rows && InFlight(rows[attempts[a].row].state))
  }

  /** A logged post belongs to the attempt that still owns its row and has no Slack call left. */
  ghost predicate Accounted(rows: map<nat, Row>, attempts: map<nat, Attempt>, e: Creation) {
    && e.attempt in attempts && attempts[e.attempt].claimed && AfterPost(attempts[e.attempt].stage)
    && attempts[e.attempt].row == e.row && e.row in rows
    && rows[e.row].binding == e.binding && rows[e.row].msg.kind.Lifecycle? == e.lifecycle
  }

  ghost predicate Logged(rows: map<nat, Row>, attempts: map<nat, Attempt>, creations: seq<Creation>) {
    && (forall i | 0 <= i < |creations| :: Accounted(rows, attempts, creations[i]))
    && (forall i, j | 0 <= i < j < |creations| :: creations[i].attempt != creations[j].attempt)
  }

  ghost predicate Inv(s: State) {
    Typed(s) && Owned(s.rows, s.attempts) && Logged(s.rows, s.attempts, s.creations)
  }

  // ---------------------------------------------------------------------------------------------
  // The shape of a step: one attempt moves, and with it at most the state of its own row.

  ghost predicate OnlyAttempt(s: State, s': State, a: nat) {
    && a in s.attempts && s.attempts[a].row in s.rows && s'.now >= s.now && s'.bindings.Keys == s.bindings.Keys
    && a in s'.attempts && s'.attempts == s.attempts[a := s'.attempts[a]] && s'.attempts[a].row == s.attempts[a].row
    && s'.rows.Keys == s.rows.Keys
    && forall r | r in s.rows ::
         s'.rows[r] == if r == s.attempts[a].row then s.rows[r].(state := s'.rows[r].state) else s.rows[r]
  }

  /** How an attempt `x` on a row in state `d` may become `x'` on the row in state `d'`. */
  predicate Lawful(x: Attempt, d: Delivery, x': Attempt, d': Delivery) {
    && (x'.claimed ==> !d'.Queued? && (x.claimed || d.Queued?))
    && (Pending(x'.stage) ==> x'.claimed && InFlight(d'))
    && (d' != d ==> (d.Queued? && x'.claimed) || x.claimed || (d.Sending? && d'.Uncertain?))
    && (x.claimed && AfterPost(x.stage) ==> x'.claimed && AfterPost(x'.stage))
  }

  lemma OwnedAt(s: State, a: nat)
    requires Inv(s) && a in s.attempts
    ensures var x := s.attempts[a];
      && a < s.now && x.row in s.rows && (x.claimed ==> !s.rows[x.row].state.Queued?)
      && (Pending(x.stage) ==> x.claimed && InFlight(s.rows[x.row].state))
      && (x.stage.Applying? ==> Fits(s.rows[x.row].msg, x.stage.phase))
  {
  }

  lemma OwnedKept(s: State, s': State, a: nat)
    requires Owned(s.rows, s.attempts) && OnlyAttempt(s, s', a)
    requires var r := s.attempts[a].row; Lawful(s.attempts[a], s.rows[r].state, s'.attempts[a], s'.rows[r].state)
    ensures Owned(s'.rows, s'.attempts)
  {
  }

  lemma LoggedKept(s: State, s': State, a: nat)
    requires Logged(s.rows, s.attempts, s.creations) && OnlyAttempt(s, s', a)
    requires s.attempts[a].claimed && AfterPost(s.attempts[a].stage) ==>
               s'.attempts[a].claimed && AfterPost(s'.attempts[a].stage)
    ensures Logged(s'.rows, s'.attempts, s.creations)
  {
    forall i | 0 <= i < |s.creations| ensures Accounted(s'.rows, s'.attempts, s.creations[i]) {
      assert Accounted(s.rows, s.attempts, s.creations[i]);
    }
  }

  lemma AttemptKeeps(s: State, s': State, a: nat)
    requires Inv(s) && OnlyAttempt(s, s', a) && s'.creations == s.creations
    requires var r := s.attempts[a].row; Lawful(s.attempts[a], s.rows[r].state, s'.attempts[a], s'.rows[r].state)
    requires s'.attempts[a].stage.Applying? ==> Fits(s.rows[s.attempts[a].row].msg, s'.attempts[a].stage.phase)
    ensures Inv(s')
  {
    OwnedKept(s, s', a);
    LoggedKept(s, s', a);
  }

  lemma PostKeeps(s: State, s': State, a: nat, e: Creation)
    requires Inv(s) && OnlyAttempt(s, s', a) && s'.creations == s.creations + [e] && s'.rows == s.rows
    requires var r := s.attempts[a].row; Lawful(s.attempts[a], s.rows[r].state, s'.attempts[a], s'.rows[r].state)
    requires s'.attempts[a].stage.Applying? ==> Fits(s.rows[s.attempts[a].row].msg, s'.attempts[a].stage.phase)
    requires s.attempts[a].claimed && !AfterPost(s.attempts[a].stage)
    requires s'.attempts[a].claimed && AfterPost(s'.attempts[a].stage)
    requires e.attempt == a && e.row == s.attempts[a].row
    requires e.binding == s.rows[e.row].binding && e.lifecycle == s.rows[e.row].msg.kind.Lifecycle?
    ensures Inv(s')
  {
    OwnedKept(s, s', a);
    LoggedKept(s, s', a);
    forall i | 0 <= i < |s.creations| ensures s.creations[i].attempt != a {
      assert Accounted(s.rows, s.attempts, s.creations[i]);
    }
  }

  lemma RowKeeps(s: State, s': State, r: nat, state: Delivery)
    requires Inv(s) && r in s.rows && s' == s.(now := s'.now, rows := s.rows[r := s.rows[r].(state := state)])
    requires s'.now >= s.now
    requires (s.rows[r].state.Queued? && state.Blocked?) || (s.rows[r].state.Sending? && state.Uncertain?)
    ensures Inv(s')
  {
  }

  /** New bindings, rows and attempts change nothing for the old ones. */
  lemma GrowthKeeps(s: State, s': State)
    requires Inv(s) && s'.now >= s.now && s'.creations == s.creations && s.bindings.Keys <= s'.bindings.Keys
    requires forall r | r in s.rows :: r in s'.rows && s'.rows[r] == s.rows[r]
    requires forall r | r in s'.rows && r !in s.rows :: s'.rows[r].binding in s'.bindings
    requires forall a | a in s.attempts :: a in s'.attempts && s'.attempts[a] == s.attempts[a]
    requires forall a | a in s'.attempts && a !in s.attempts ::
               a < s'.now && s'.attempts[a].row in s'.rows && s'.attempts[a].stage.Leased? && !s'.attempts[a].claimed
    ensures Inv(s')
  {
  }

  // ---------------------------------------------------------------------------------------------
  // The projection between two awaits

  /** No projection issues a Slack call after its post, and a rate-limited attempt has posted nothing. */
  lemma PostIsLast(m: Message, p: Phase, answer: Answer)
    requires Fits(m, p)
    ensures var stage := StageAfter(Resume(m, p, answer));
      && (Pending(stage) || stage == Finishing(Uncertain))
      && (stage.Applying? ==> Fits(m, stage.phase))
      && (stage.Finishing? ==> !stage.outcome.Accepted? && !stage.outcome.Skipped?)
      && (AfterPost(Applying(p)) && !answer.SlackError? ==> AfterPost(stage))
      && (IsSlackCall(CallOf(m, p)) ==> !AfterPost(Applying(p)))
      && (CallOf(m, p).Post? && answer.Stamp? ==> AfterPost(stage))
      && (answer == SlackError(Refused) || answer == SlackError(Unclear) ==> AfterPost(stage))
      && (stage.Retrying? ==> answer == SlackError(Retryable))
  {
  }

  lemma StartFits(place: Place, m: Message)
    ensures var stage := StageAfter(Start(place, m));
      && (stage.Applying? ==> Fits(m, stage.phase))
      && (stage.Finishing? ==> stage.outcome.Uncertain?)
      && (stage.Applying? || stage.Finishing?)
  {
  }

  lemma SlackFrame(s: State, a: nat, call: Call, reply: SlackReply)
    requires Present(s, a) && IsSlackCall(call)
    ensures var (t, answer) := ServeSlack(s, a, call, reply);
      && t == s.(creations := t.creations) && (answer.Stamp? ==> call.Post?)
      && (answer == SlackError(Retryable) ==> reply == RateLimit)
      && (t.creations == s.creations ||
          (&& |t.creations| == |s.creations| + 1 && t == Create(s, a, t.creations[|s.creations|].misread)
           && (answer == SlackError(Refused) || answer == SlackError(Unclear) || (answer.Stamp? && call.Post?))))
  {
  }

  lemma StoreFrame(s: State, a: nat, call: Call)
    requires Present(s, a) && !IsSlackCall(call)
    ensures var (t, answer) := ServeStore(s, a, call);
      t == s.(bindings := t.bindings) && t.bindings.Keys == s.bindings.Keys && !answer.SlackError?
  {
  }

  lemma AwaitFrame(s: State, a: nat, reply: SlackReply)
    requires Enabled(s, Await(a, reply))
    ensures var s' := Next(s, Await(a, reply));
      && s' == s.(now := s.now + 1, bindings := s'.bindings, attempts := s'.attempts, creations := s'.creations)
      && s'.bindings.Keys == s.bindings.Keys && a in s'.attempts
      && s'.attempts == s.attempts[a := s.attempts[a].(stage := s'.attempts[a].stage)]
      && (s'.attempts[a].stage.Retrying? ==> reply == RateLimit)
      && (Pending(s'.attempts[a].stage) || s'.attempts[a].stage == Finishing(Uncertain))
      && (s'.attempts[a].stage.Applying? ==> Fits(RowOf(s, a).msg, s'.attempts[a].stage.phase))
      && (s'.attempts[a].stage.Finishing? ==>
            !s'.attempts[a].stage.outcome.Accepted? && !s'.attempts[a].stage.outcome.Skipped?)
      && (AfterPost(s.attempts[a].stage) ==> AfterPost(s'.attempts[a].stage))
      && (s'.creations == s.creations ||
          (&& |s'.creations| == |s.creations| + 1
           && s'.creations == Create(s, a, s'.creations[|s.creations|].misread).creations
           && AfterPost(s'.attempts[a].stage) && !AfterPost(s.attempts[a].stage)))
  {
    var m, p := RowOf(s, a).msg, s.attempts[a].stage.phase;
    var call := CallOf(m, p);
    if IsSlackCall(call) {
      SlackFrame(s, a, call, reply);
      PostIsLast(m, p, ServeSlack(s, a, call, reply).1);
    } else {
      StoreFrame(s, a, call);
      PostIsLast(m, p, ServeStore(s, a, call).1);
    }
  }

  // ---------------------------------------------------------------------------------------------
  // Every event keeps the invariant

  lemma AwaitKeeps(s: State, a: nat, reply: SlackReply)
    requires Inv(s) && Enabled(s, Await(a, reply))
    ensures Inv(Next(s, Await(a, reply)))
  {
    hide Inv, Owned, Logged, Effect;
    var s' := Next(s, Await(a, reply));
    AwaitFrame(s, a, reply);
    OwnedAt(s, a);
    if s'.creations == s.creations {
      AttemptKeeps(s, s', a);
    } else {
      PostKeeps(s, s', a, s'.creations[|s.creations|]);
    }
  }

  lemma ClaimKeeps(s: State, e: Event)
    requires Inv(s) && Enabled(s, e) && (e.Claim? || e.ClaimFailed?)
    ensures Inv(Next(s, e))
  {
    hide Inv, Start, StageAfter, Fits, Holds;
    OwnedAt(s, e.attempt);
    StartFits(s.bindings[BindingOf(s, e.attempt)].place, RowOf(s, e.attempt).msg);
    AttemptKeeps(s, Next(s, e), e.attempt);
  }

  lemma StoreFailedKeeps(s: State, a: nat, landed: bool)
    requires Inv(s) && Enabled(s, StoreFailed(a, landed))
    ensures Inv(Next(s, StoreFailed(a, landed)))
  {
    hide Inv;
    OwnedAt(s, a);
    StoreFrame(s, a, CallOf(RowOf(s, a).msg, s.attempts[a].stage.phase));
    AttemptKeeps(s, Next(s, StoreFailed(a, landed)), a);
  }

  lemma FinishKeeps(s: State, e: Event)
    requires Inv(s) && Enabled(s, e) && (e.Finish? || e.FinishFailed?)
    ensures Inv(Next(s, e))
  {
    hide Inv;
    OwnedAt(s, e.attempt);
    AttemptKeeps(s, Next(s, e), e.attempt);
  }

  lemma RenewKeeps(s: State, a: nat, failed: bool)
    requires Inv(s) && Enabled(s, Renew(a, failed))
    ensures Inv(Next(s, Renew(a, failed)))
  {
    hide Inv;
    OwnedAt(s, a);
    AttemptKeeps(s, Next(s, Renew(a, failed)), a);
  }

  lemma RescheduleKeeps(s: State, a: nat, landed: bool)
    requires Inv(s) && Enabled(s, Reschedule(a, landed))
    ensures Inv(Next(s, Reschedule(a, landed)))
  {
    hide Inv;
    OwnedAt(s, a);
    AttemptKeeps(s, Next(s, Reschedule(a, landed)), a);
  }

  lemma HeartbeatKeeps(s: State, a: nat, failed: bool)
    requires Inv(s) && Enabled(s, Heartbeat(a, failed))
    ensures Inv(Next(s, Heartbeat(a, failed)))
  {
    hide Inv;
    OwnedAt(s, a);
    AttemptKeeps(s, Next(s, Heartbeat(a, failed)), a);
  }

  lemma GoneKeeps(s: State, e: Event)
    requires Inv(s) && Enabled(s, e) && (e.Release? || e.Crash?)
    ensures Inv(Next(s, e))
  {
    hide Inv;
    OwnedAt(s, e.attempt);
    AttemptKeeps(s, Next(s, e), e.attempt);
  }

  lemma TableKeeps(s: State, e: Event)
    requires Inv(s) && Enabled(s, e)
    requires e.Bind? || e.Enqueue? || e.BlockQueued? || e.Interrupt? || e.Reassign? || e.Pass? || e.Acquire?
    ensures Inv(Next(s, e))
  {
    hide Inv;
    if e.BlockQueued? || e.Interrupt? {
      RowKeeps(s, Next(s, e), e.row, Next(s, e).rows[e.row].state);
    } else {
      GrowthKeeps(s, Next(s, e));
    }
  }

  lemma StepKeeps(s: State, e: Event)
    requires Inv(s) && Enabled(s, e)
    ensures Inv(Next(s, e))
  {
    hide *;
    match e
    case Await(a, reply) => AwaitKeeps(s, a, reply);
    case Claim(_, _) => ClaimKeeps(s, e);
    case ClaimFailed(_, _) => ClaimKeeps(s, e);
    case StoreFailed(a, landed) => StoreFailedKeeps(s, a, landed);
    case Finish(_) => FinishKeeps(s, e);
    case FinishFailed(_, _) => FinishKeeps(s, e);
    case Heartbeat(a, failed) => HeartbeatKeeps(s, a, failed);
    case Renew(a, failed) => RenewKeeps(s, a, failed);
    case Reschedule(a, landed) => RescheduleKeeps(s, a, landed);
    case Release(_) => GoneKeeps(s, e);
    case Crash(_) => GoneKeeps(s, e);
    case _ => TableKeeps(s, e);
  }

  lemma {:induction false} RunKeeps(events: seq<Event>)
    requires Possible(events)
    ensures Inv(After(events))
    decreases |events|
  {
    if events != [] {
      var n := |events| - 1;
      RunKeeps(events[..n]);
      StepKeeps(After(events[..n]), events[n]);
    }
  }

  // ---------------------------------------------------------------------------------------------
  // Results

  /** Slack accepts at most one post for a delivery, over every run. */
  lemma AtMostOnePost(events: seq<Event>, i: nat, j: nat)
    requires Possible(events) && i < j < |After(events).creations|
    ensures After(events).creations[i].row != After(events).creations[j].row
  {
    RunKeeps(events);
    var s := After(events);
    assert Accounted(s.rows, s.attempts, s.creations[i]) && Accounted(s.rows, s.attempts, s.creations[j]);
  }

  /** A queued delivery has never been accepted by Slack, so claiming it again is safe. */
  lemma QueuedIsUnposted(events: seq<Event>, r: nat)
    requires Possible(events) && r in After(events).rows && After(events).rows[r].state.Queued?
    ensures forall i | 0 <= i < |After(events).creations| :: After(events).creations[i].row != r
  {
    RunKeeps(events);
    var s := After(events);
    forall i | 0 <= i < |s.creations| ensures s.creations[i].row != r {
      assert Accounted(s.rows, s.attempts, s.creations[i]);
    }
  }

  /** A row is never removed, and once terminal it keeps its state whatever happens next. */
  lemma {:induction false} TerminalIsFinal(events: seq<Event>, k: nat, r: nat)
    requires Possible(events) && k <= |events|
    ensures Possible(events[..k])
    ensures r in After(events[..k]).rows ==> r in After(events).rows
    ensures r in After(events[..k]).rows && Terminal(After(events[..k]).rows[r].state) ==>
              After(events).rows[r] == After(events[..k]).rows[r]
    decreases |events|
  {
    var n := |events| - 1;
    if k == |events| {
      assert events[..k] == events;
    } else {
      TerminalIsFinal(events[..n], k, r);
      assert events[..n][..k] == events[..k];
      if r in After(events[..n]).rows {
        RowStep(After(events[..n]), events[n], r);
      }
    }
  }

  lemma RowStep(s: State, e: Event, r: nat)
    requires Enabled(s, e) && r in s.rows
    ensures r in Next(s, e).rows
    ensures Terminal(s.rows[r].state) ==> Next(s, e).rows[r] == s.rows[r]
    ensures s.rows[r].state.Sending? && Next(s, e).rows[r].state.Queued? ==>
              && e.Reschedule? && s.attempts[e.attempt].row == r && s.attempts[e.attempt].stage.Retrying?
              && Next(s, e).creations == s.creations
  {
    if e.Await? {
      AwaitFrame(s, e.attempt, e.reply);
    } else if e.StoreFailed? {
      StoreFrame(s, e.attempt, CallOf(RowOf(s, e.attempt).msg, s.attempts[e.attempt].stage.phase));
    }
  }

  lemma StoreFailedMoves(s: State, a: nat, landed: bool)
    requires Enabled(s, StoreFailed(a, landed))
    ensures var t := StoreFailedStep(s, a, landed);
      && t.attempts == s.attempts[a := s.attempts[a].(stage := Finishing(Uncertain))]
      && t.rows == s.rows && t.creations == s.creations
  {
    StoreFrame(s, a, CallOf(RowOf(s, a).msg, s.attempts[a].stage.phase));
  }

  /** No event by `a` that records an outcome or hands the row back. */
  predicate RecordsNothing(e: Event, a: nat) {
    (e.Finish? || e.FinishFailed? || e.Reschedule?) ==> e.attempt != a
  }

  /** An owned row leaves `sending` by its owner, or becomes uncertain. */
  lemma OwnedRowStep(s: State, e: Event, a: nat)
    requires Inv(s) && Enabled(s, e) && a in s.attempts && s.attempts[a].claimed && RecordsNothing(e, a)
    ensures var r := s.attempts[a].row; var t := Next(s, e);
      && a in t.attempts && t.attempts[a].row == r && t.attempts[a].claimed && r in s.rows && r in t.rows
      && !s.rows[r].state.Queued?
      && (t.rows[r].state == s.rows[r].state || (s.rows[r].state.Sending? && t.rows[r].state.Uncertain?))
  {
    hide Next, Enabled, Effect, Inv;
    OwnedAt(s, a);
    if e.Finish? || e.FinishFailed? || e.Reschedule? {
      OthersRecord(s, e, a);
    } else {
      OthersMove(s, e, a);
    }
  }

  /** Nothing else touches a row that is not queued, but for an interruption. */
  lemma OthersMove(s: State, e: Event, a: nat)
    requires Enabled(s, e) && !e.Finish? && !e.FinishFailed? && !e.Reschedule?
    requires a in s.attempts && a < s.now && s.attempts[a].claimed && s.attempts[a].row in s.rows
    requires !s.rows[s.attempts[a].row].state.Queued?
    ensures var r := s.attempts[a].row; var t := Next(s, e);
      && a in t.attempts && t.attempts[a].row == r && t.attempts[a].claimed && r in t.rows
      && (t.rows[r].state == s.rows[r].state || (s.rows[r].state.Sending? && t.rows[r].state.Uncertain?))
  {
    hide Next, Enabled, Effect;
    if e.Await? || e.StoreFailed? {
      AwaitsMove(s, e, a);
    } else if e.Claim? || e.ClaimFailed? {
      ClaimsMove(s, e, a);
    } else {
      StatementsMove(s, e, a);
    }
  }

  lemma AwaitsMove(s: State, e: Event, a: nat)
    requires Enabled(s, e) && (e.Await? || e.StoreFailed?)
    requires a in s.attempts && a < s.now && s.attempts[a].claimed && s.attempts[a].row in s.rows
    requires !s.rows[s.attempts[a].row].state.Queued?
    ensures var r := s.attempts[a].row; var t := Next(s, e);
      && a in t.attempts && t.attempts[a].row == r && t.attempts[a].claimed && r in t.rows
      && (t.rows[r].state == s.rows[r].state || (s.rows[r].state.Sending? && t.rows[r].state.Uncertain?))
  {
    hide AwaitStep, StoreFailedStep, CallOf, Fits;
    if e.Await? {
      AwaitFrame(s, e.attempt, e.reply);
    } else {
      StoreFailedMoves(s, e.attempt, e.landed);
    }
  }

  lemma ClaimsMove(s: State, e: Event, a: nat)
    requires Enabled(s, e) && (e.Claim? || e.ClaimFailed?)
    requires a in s.attempts && a < s.now && s.attempts[a].claimed && s.attempts[a].row in s.rows
    requires !s.rows[s.attempts[a].row].state.Queued?
    ensures var r := s.attempts[a].row; var t := Next(s, e);
      && a in t.attempts && t.attempts[a].row == r && t.attempts[a].claimed && r in t.rows
      && (t.rows[r].state == s.rows[r].state || (s.rows[r].state.Sending? && t.rows[r].state.Uncertain?))
  {
    hide Start, StageAfter, Holds;
  }

  lemma StatementsMove(s: State, e: Event, a: nat)
    requires Enabled(s, e) && !e.Finish? && !e.FinishFailed? && !e.Reschedule? && !e.Await? && !e.StoreFailed? && !e.Claim? && !e.ClaimFailed?
    requires a in s.attempts && a < s.now && s.attempts[a].claimed && s.attempts[a].row in s.rows
    requires !s.rows[s.attempts[a].row].state.Queued?
    ensures var r := s.attempts[a].row; var t := Next(s, e);
      && a in t.attempts && t.attempts[a].row == r && t.attempts[a].claimed && r in t.rows
      && (t.rows[r].state == s.rows[r].state || (s.rows[r].state.Sending? && t.rows[r].state.Uncertain?))
  {
    hide Start, StageAfter, CallOf, Granted, Renewed, LeaseStore.Released, Holds, HeldBy, Fits;
  }

  /** Another attempt that records on the row can only be one that never owned it. */
  lemma OthersRecord(s: State, e: Event, a: nat)
    requires Inv(s) && Enabled(s, e) && a in s.attempts && s.attempts[a].claimed && s.attempts[a].row in s.rows
    requires (e.Finish? || e.FinishFailed? || e.Reschedule?) && e.attempt != a && !s.rows[s.attempts[a].row].state.Queued?
    ensures var r := s.attempts[a].row; var t := Next(s, e);
      && a in t.attempts && t.attempts[a] == s.attempts[a] && r in t.rows
      && (t.rows[r].state == s.rows[r].state || (s.rows[r].state.Sending? && t.rows[r].state.Uncertain?))
  {
    hide Logged, Typed;
  }

  /** Only a Slack rate limit makes an attempt hand its row back. */
  lemma RetryStarts(s: State, e: Event, a: nat)
    requires Enabled(s, e)
    requires a in Next(s, e).attempts && Next(s, e).attempts[a].stage.Retrying?
    ensures a in s.attempts && (s.attempts[a].stage.Retrying? || e == Await(a, RateLimit))
  {
    hide Next;
    if e.Await? {
      AwaitFrame(s, e.attempt, e.reply);
    } else {
      NothingElseRetries(s, e, a);
    }
  }

  lemma NothingElseRetries(s: State, e: Event, a: nat)
    requires Enabled(s, e) && !e.Await?
    requires a in Next(s, e).attempts && Next(s, e).attempts[a].stage.Retrying?
    ensures a in s.attempts && s.attempts[a].stage.Retrying?
  {
    hide AwaitStep, Start, Resume, ServeStore, ServeSlack, CallOf;
    if e.Claim? {
      StartFits(s.bindings[BindingOf(s, e.attempt)].place, RowOf(s, e.attempt).msg);
    } else if e.StoreFailed? {
      StoreFrame(s, e.attempt, CallOf(RowOf(s, e.attempt).msg, s.attempts[e.attempt].stage.phase));
    }
  }

  lemma {:induction false} RetryingWasRateLimited(events: seq<Event>, a: nat)
    requires Possible(events) && a in After(events).attempts && After(events).attempts[a].stage.Retrying?
    ensures Await(a, RateLimit) in events
    decreases |events|
  {
    var n := |events| - 1;
    RetryStarts(After(events[..n]), events[n], a);
    if events[n] != Await(a, RateLimit) {
      RetryingWasRateLimited(events[..n], a);
    }
  }

  /** `sending` turns back into `queued` only by the owner's reschedule, after Slack rate-limited it. */
  lemma HandedBackOnlyWhenRateLimited(events: seq<Event>, e: Event, r: nat)
    requires Possible(events) && Enabled(After(events), e) && r in After(events).rows
    requires After(events).rows[r].state.Sending?
    requires r in Next(After(events), e).rows && Next(After(events), e).rows[r].state.Queued?
    ensures e.Reschedule? && After(events).attempts[e.attempt].row == r
    ensures Await(e.attempt, RateLimit) in events
    ensures forall i | 0 <= i < |After(events).creations| :: After(events).creations[i].row != r
  {
    var s := After(events);
    RunKeeps(events);
    RowStep(s, e, r);
    RetryingWasRateLimited(events, e.attempt);
    assert Possible(events + [e]) && After(events + [e]) == Next(s, e) by {
      assert (events + [e])[..|events|] == events;
    }
    QueuedIsUnposted(events + [e], r);
    forall i | 0 <= i < |s.creations| ensures s.creations[i].row != r {
      assert Next(s, e).creations[i] == s.creations[i];
    }
  }

  /** A projection is never stuck: whatever Slack answers, its suspended call can be answered. */
  lemma ProjectionIsNeverStuck(events: seq<Event>, a: nat, reply: SlackReply)
    requires Possible(events) && a in After(events).attempts && After(events).attempts[a].stage.Applying?
    ensures Possible(events + [Await(a, reply)])
  {
    RunKeeps(events);
    var s := After(events);
    OwnedAt(s, a);
    assert Present(s, a);
    assert (events + [Await(a, reply)])[..|events|] == events;
    hide Inv;
    assert Enabled(s, Await(a, reply));
  }
}
