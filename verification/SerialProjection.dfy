/**
 What the lease of a binding is for: the projections of one conversation run one after the other. As long
 as every attempt that owns its row keeps the lease until its outcome is recorded and its calls do what
 they answer, the conversation is the replay of its messages in the order in which the leases were taken.
 */
module SerialProjection {
  import opened Prelude
  import opened Projection
  import opened Deliveries
  import opened LeaseStore
  import opened DeliveryProtocol
  import opened Conversation
  import opened StampedThread
  import A = AtMostOnce
  import L = LeaseSpans
  import R = ThreadRendering

  // ---------------------------------------------------------------------------------------------
  // The order of the awaits

  ghost predicate AwaitsOn(s: State, e: Event, b: nat) {
    (e.Await? || e.StoreFailed?) && Present(s, e.attempt) && BindingOf(s, e.attempt) == b
  }

  /**
   Whatever else happens in a run, the awaits made under the lease of a binding are in the order in which
   the leases were taken. The awaits of one projection are therefore never interleaved with another's.
   */
  lemma AwaitsInLeaseOrder(events: seq<Event>, i: nat, j: nat, b: nat)
    requires Possible(events) && i < j < |events| && Possible(events[..i]) && Possible(events[..j])
    requires AwaitsOn(After(events[..i]), events[i], b) && Holds(After(events[..i]), events[i].attempt, b)
    requires AwaitsOn(After(events[..j]), events[j], b) && Holds(After(events[..j]), events[j].attempt, b)
    ensures events[i].attempt <= events[j].attempt
  {
    hide Possible, After, Enabled, Next;
    var a, c := events[i].attempt, events[j].attempt;
    L.AttemptsAreAcquired(events[..i]);
    if c < a {
      L.TakenBy(events[..j], i, c);
      assert events[..j][..i] == events[..i];
      L.HeldThroughout(events[..j], i, c, b);
    }
  }

  // ---------------------------------------------------------------------------------------------
  // What a run does to one conversation

  /** An attempt that won its claim. */
  datatype Visit = Visit(attempt: nat, row: nat, msg: Message)

  /** What an accepted Slack call does to the thread. */
  function Changed(entries: seq<Entry>, stamp: nat, call: Call, reply: SlackReply): seq<Entry> {
    if !reply.Accept? && !reply.AcceptWithoutStamp? && reply != Ambiguous(true) then entries
    else
      match call
      case Post(shown) => entries + [Entry(stamp, shown)]
      case Update(post, shown) => Rewrite(entries, post, shown)
      case Delete(post) => Without(entries, post)
      case _ => entries
  }

  ghost function PostsAfter(s: State, e: Event, posts: seq<Entry>, b: nat): seq<Entry>
    requires Enabled(s, e)
  {
    if e.Await? && BindingOf(s, e.attempt) == b then
      Changed(posts, s.now, CallOf(RowOf(s, e.attempt).msg, s.attempts[e.attempt].stage.phase), e.reply)
    else posts
  }

  ghost function VisitsAfter(s: State, e: Event, visits: seq<Visit>, b: nat): seq<Visit>
    requires Enabled(s, e)
  {
    if e.Claim? && e.won && BindingOf(s, e.attempt) == b then
      visits + [Visit(e.attempt, s.attempts[e.attempt].row, RowOf(s, e.attempt).msg)]
    else visits
  }

  /** The thread of `b` as Slack has it after the run. */
  ghost function Posts(events: seq<Event>, b: nat): seq<Entry>
    requires Possible(events)
  {
    if events == [] then []
    else var n := |events| - 1; PostsAfter(After(events[..n]), events[n], Posts(events[..n], b), b)
  }

  /** The claims won on `b`, in order. */
  ghost function Visits(events: seq<Event>, b: nat): seq<Visit>
    requires Possible(events)
  {
    if events == [] then []
    else var n := |events| - 1; VisitsAfter(After(events[..n]), events[n], Visits(events[..n], b), b)
  }

  function Messages(visits: seq<Visit>): (r: seq<Message>)
    ensures |r| == |visits| && forall i | 0 <= i < |visits| :: r[i] == visits[i].msg
  {
    seq(|visits|, i requires 0 <= i < |visits| => visits[i].msg)
  }

  function PostOf(creations: seq<Creation>, a: nat): Option<nat> {
    if creations == [] then None
    else
      var n := |creations| - 1;
      if creations[n].attempt == a then Some(creations[n].post) else PostOf(creations[..n], a)
  }

  /** The timestamp of the visit's own post. A visit without one is stamped with its attempt. */
  function StampOf(creations: seq<Creation>, a: nat): nat {
    var post := PostOf(creations, a);
    if post.Some? then post.value else a
  }

  function Stamps(creations: seq<Creation>, visits: seq<Visit>): (r: seq<nat>)
    ensures |r| == |visits| && forall i | 0 <= i < |visits| :: r[i] == StampOf(creations, visits[i].attempt)
  {
    seq(|visits|, i requires 0 <= i < |visits| => StampOf(creations, visits[i].attempt))
  }

  // ---------------------------------------------------------------------------------------------
  // Undisturbed runs

  predicate Over(stage: Stage) {
    stage.Releasing? || stage.Gone?
  }

  ghost predicate Of(s: State, a: nat, b: nat) {
    a in s.attempts && s.attempts[a].row in s.rows && s.rows[s.attempts[a].row].binding == b
  }

  /** Every attempt that owns its row holds the lease until its outcome is recorded. */
  ghost predicate KeepsLease(s: State, b: nat) {
    forall a | Of(s, a, b) && s.attempts[a].claimed && !Over(s.attempts[a].stage) :: Holds(s, a, b)
  }

  /**
   No call of an attempt on `b` fails, no such attempt dies before its outcome is recorded, and nobody
   sweeps, disconnects or reassigns the conversation. Lost claims, failed releases and expired leases of
   attempts that own nothing are no disturbance, and neither is anything on other bindings.
   */
  ghost predicate Undisturbed(s: State, e: Event, b: nat)
    requires Enabled(s, e)
  {
    match e
    case Interrupt(r) => s.rows[r].binding != b
    case Reassign(c) => c != b
    case ClaimFailed(a, _) => BindingOf(s, a) != b
    case Await(a, reply) => BindingOf(s, a) == b ==> reply == Accept
    case StoreFailed(a, _) => BindingOf(s, a) != b
    case Heartbeat(a, failed) => BindingOf(s, a) == b ==> !failed
    case Renew(a, failed) => BindingOf(s, a) == b ==> !failed
    case FinishFailed(a, _) => BindingOf(s, a) != b
    case Crash(a) => BindingOf(s, a) == b && s.attempts[a].claimed ==> Over(s.attempts[a].stage)
    case _ => true
  }

  ghost predicate Calm(events: seq<Event>, b: nat)
    requires Possible(events)
  {
    events == [] ||
    (var n := |events| - 1;
     Calm(events[..n], b) && Undisturbed(After(events[..n]), events[n], b) && KeepsLease(After(events), b))
  }

  // ---------------------------------------------------------------------------------------------
  // Rows and attempts of the conversation

  /** A lifecycle message without its version cannot be projected. */
  predicate Unversioned(m: Message) {
    m.kind.Lifecycle? && m.version.None?
  }

  /**
   What an attempt that won its claim makes of its row: an unversioned lifecycle message ends uncertain, any
   other accepted or skipped, or blocked if it is a status update whose first post is in doubt.
   */
  predicate Fated(m: Message, stage: Stage, d: Delivery) {
    match stage
    case Leased => false
    case Retrying => false
    case Finishing(outcome) => d.Sending? && Due(m, outcome)
    case Applying(_) => d.Sending? && !Unversioned(m)
    case Renewing(_) => d.Sending? && !Unversioned(m)
    case _ => Terminal(d) && Due(m, d)
  }

  predicate Due(m: Message, d: Delivery) {
    if Unversioned(m) then d.Uncertain? else d.Accepted? || d.Skipped? || (d.Blocked? && m.kind.Lifecycle?)
  }

  ghost predicate VisitOk(s: State, v: Visit, b: nat) {
    && Of(s, v.attempt, b) && s.attempts[v.attempt].claimed && s.attempts[v.attempt].row == v.row
    && s.rows[v.row].msg == v.msg && Fated(v.msg, s.attempts[v.attempt].stage, s.rows[v.row].state)
  }

  predicate Visited(visits: seq<Visit>, a: nat) {
    exists i | 0 <= i < |visits| :: visits[i].attempt == a
  }

  predicate VisitedRow(visits: seq<Visit>, r: nat) {
    exists i | 0 <= i < |visits| :: visits[i].row == r
  }

  /** Every attempt but the last is over, and the attempts are in the order of their leases. */
  ghost predicate InOrder(s: State, visits: seq<Visit>, b: nat) {
    && (forall i | 0 <= i < |visits| :: VisitOk(s, visits[i], b))
    && (forall i | 0 <= i < |visits| - 1 :: Over(s.attempts[visits[i].attempt].stage))
    && (forall i, j | 0 <= i < j < |visits| :: visits[i].attempt < visits[j].attempt)
  }

  /** Attempts own a row only by a visit, and rows are under way only by a visit. */
  ghost predicate Complete(s: State, visits: seq<Visit>, b: nat)
    requires b in s.bindings
  {
    && (forall a | Of(s, a, b) ::
          if s.attempts[a].claimed then Visited(visits, a) else s.attempts[a].stage.Leased? || Over(s.attempts[a].stage))
    && (forall r | r in s.rows && s.rows[r].binding == b ::
          s.rows[r].generation == s.bindings[b].generation && (InFlight(s.rows[r].state) ==> VisitedRow(visits, r)))
  }

  /** No visit is later than the current lease. */
  ghost predicate Fresh(s: State, visits: seq<Visit>, b: nat) {
    b in s.leases ==> forall i | 0 <= i < |visits| :: visits[i].attempt <= s.leases[b].token
  }

  /** A heartbeat that did not renew was one of a lost lease. */
  ghost predicate Honest(s: State, b: nat) {
    forall a | Of(s, a, b) && s.attempts[a].lapsed :: !Holds(s, a, b)
  }

  ghost predicate Table(s: State, visits: seq<Visit>, b: nat) {
    b in s.bindings && InOrder(s, visits, b) && Complete(s, visits, b) && Fresh(s, visits, b) && Honest(s, b)
  }

  lemma HonestKept(s: State, e: Event, b: nat)
    requires A.Inv(s) && Honest(s, b) && Enabled(s, e) && Undisturbed(s, e, b)
    ensures Honest(Next(s, e), b)
  {
    hide Next, Enabled, A.Inv, Holds, Effect;
    var s' := Next(s, e);
    forall a | Of(s', a, b) && s'.attempts[a].lapsed ensures !Holds(s', a, b) {
      LapseStep(s, e, a);
      OfBefore(s, e, a, b);
      if e.Heartbeat? && e.attempt == a {
        BeatsHonestly(s, e, b);
      }
      if a in s.attempts && s.attempts[a].lapsed {
        L.LostForGood(s, e, a, b);
      }
    }
  }

  /** Attempts and rows stay what they are about. */
  lemma OfBefore(s: State, e: Event, a: nat, b: nat)
    requires A.Inv(s) && Enabled(s, e) && a in s.attempts
    ensures Of(Next(s, e), a, b) <==> Of(s, a, b)
  {
    hide Next, Enabled, A.Owned, A.Logged, Effect;
    L.AttemptsStay(s, e, a);
    L.AttemptStep(s, e, a);
    L.RowStays(s, e, s.attempts[a].row);
  }

  lemma LapseStep(s: State, e: Event, a: nat)
    requires Enabled(s, e) && a in Next(s, e).attempts && Next(s, e).attempts[a].lapsed
    ensures a in s.attempts && (s.attempts[a].lapsed || (e.Heartbeat? && e.attempt == a))
  {
    hide AwaitStep, StoreFailedStep, Start, StageAfter, CallOf, Granted, Renewed, LeaseStore.Released, Holds, HeldBy, Fits;
    if e.Await? {
      A.AwaitFrame(s, e.attempt, e.reply);
    } else if e.StoreFailed? {
      StoreFailedLapses(s, e.attempt, e.landed);
    }
  }

  lemma StoreFailedLapses(s: State, a: nat, landed: bool)
    requires Enabled(s, StoreFailed(a, landed))
    ensures StoreFailedStep(s, a, landed).attempts == s.attempts[a := s.attempts[a].(stage := Finishing(Uncertain))]
  {
    A.StoreFrame(s, a, CallOf(RowOf(s, a).msg, s.attempts[a].stage.phase));
  }

  lemma BeatsHonestly(s: State, e: Event, b: nat)
    requires Enabled(s, e) && e.Heartbeat? && Undisturbed(s, e, b) && Of(s, e.attempt, b)
    ensures Next(s, e).attempts[e.attempt].lapsed && !s.attempts[e.attempt].lapsed ==> !Holds(Next(s, e), e.attempt, b)
  {
  }

  lemma FreshKept(s: State, e: Event, visits: seq<Visit>, b: nat)
    requires A.Inv(s) && InOrder(s, visits, b) && Fresh(s, visits, b) && Enabled(s, e)
    ensures Fresh(Next(s, e), visits, b)
  {
    hide Next, Enabled;
    var s' := Next(s, e);
    if b in s'.leases && !(b in s.leases && s'.leases[b] == s.leases[b]) {
      L.LeaseChangesByItsHolder(s, e, b);
      forall i | 0 <= i < |visits| ensures visits[i].attempt <= s'.leases[b].token {
        assert VisitOk(s, visits[i], b);
      }
    }
  }

  // ---------------------------------------------------------------------------------------------
  // Steps that leave the conversation alone

  /** Nothing of `b` changes, but for new rows and attempts and queued rows being blocked. */
  ghost predicate Elsewhere(s: State, s': State, b: nat) {
    && b in s.bindings && b in s'.bindings && s'.bindings[b].generation == s.bindings[b].generation
    && (forall a | Of(s, a, b) :: a in s'.attempts && s'.attempts[a] == s.attempts[a])
    && (forall a | Of(s', a, b) :: Of(s, a, b) || (s'.attempts[a].stage.Leased? && !s'.attempts[a].claimed))
    && (forall r | r in s.rows && s.rows[r].binding == b ::
          && r in s'.rows && s'.rows[r] == s.rows[r].(state := s'.rows[r].state)
          && (s'.rows[r].state == s.rows[r].state || (s.rows[r].state.Queued? && s'.rows[r].state.Blocked?)))
    && (forall r | r in s'.rows && s'.rows[r].binding == b ::
          (r in s.rows && s.rows[r].binding == b) ||
          (s'.rows[r].generation == s.bindings[b].generation && s'.rows[r].state.Queued?))
  }

  lemma ElsewhereKeeps(s: State, s': State, visits: seq<Visit>, b: nat)
    requires Elsewhere(s, s', b) && InOrder(s, visits, b) && Complete(s, visits, b)
    ensures InOrder(s', visits, b) && Complete(s', visits, b)
  {
    hide Visited, VisitedRow;
    forall i | 0 <= i < |visits| ensures VisitOk(s', visits[i], b) {
      assert VisitOk(s, visits[i], b);
    }
  }

  /** An await or statement of an attempt that is on another binding. */
  ghost predicate Foreign(s: State, s': State, a: nat, b: nat) {
    && A.OnlyAttempt(s, s', a) && !Of(s, a, b)
    && b in s.bindings && b in s'.bindings && s'.bindings[b].generation == s.bindings[b].generation
  }

  lemma ForeignIsElsewhere(s: State, s': State, a: nat, b: nat)
    requires Foreign(s, s', a, b)
    ensures Elsewhere(s, s', b)
  {
  }

  /** Only a reassignment and the awaits of its own projections change a binding. */
  lemma BindingKept(s: State, e: Event, b: nat)
    requires Enabled(s, e) && b in s.bindings && e != Reassign(b) && !AwaitsOn(s, e, b)
    ensures b in Next(s, e).bindings && Next(s, e).bindings[b] == s.bindings[b]
  {
    hide AwaitStep, StoreFailedStep, Start, Resume, CallOf, Granted, Renewed, LeaseStore.Released;
    if e.Await? {
      AwaitBindings(s, e.attempt, e.reply);
    } else if e.StoreFailed? {
      StoreBindings(s, e.attempt, e.landed);
    }
  }

  lemma AwaitBindings(s: State, a: nat, reply: SlackReply)
    requires Enabled(s, Await(a, reply))
    ensures forall c | c in s.bindings && c != BindingOf(s, a) ::
              c in Next(s, Await(a, reply)).bindings && Next(s, Await(a, reply)).bindings[c] == s.bindings[c]
  {
    hide Resume, StageAfter;
    var call := CallOf(RowOf(s, a).msg, s.attempts[a].stage.phase);
    if IsSlackCall(call) {
      A.SlackFrame(s, a, call, reply);
    }
  }

  lemma StoreBindings(s: State, a: nat, landed: bool)
    requires Enabled(s, StoreFailed(a, landed))
    ensures forall c | c in s.bindings && c != BindingOf(s, a) ::
              c in Next(s, StoreFailed(a, landed)).bindings && Next(s, StoreFailed(a, landed)).bindings[c] == s.bindings[c]
  {
  }

  lemma AttemptFrame(s: State, e: Event)
    requires A.Inv(s) && Enabled(s, e) && ByAttempt(e)
    ensures A.OnlyAttempt(s, Next(s, e), e.attempt)
  {
    hide Next, Enabled, Effect, A.Inv;
    if e.Await? {
      OnlyStage(s, e.attempt, e.reply);
    } else if e.StoreFailed? {
      StoreFailedFrame(s, e);
    } else if e.Heartbeat? || e.Renew? || e.Release? || e.Crash? {
      LeaseFrame(s, e);
    } else if e.Claim? || e.ClaimFailed? {
      ClaimFrame(s, e);
    } else {
      OutcomeFrame(s, e);
    }
  }

  lemma OnlyStage(s: State, a: nat, reply: SlackReply)
    requires A.Inv(s) && Enabled(s, Await(a, reply))
    ensures A.OnlyAttempt(s, Next(s, Await(a, reply)), a)
  {
    hide Effect, A.Inv, Next;
    A.AwaitFrame(s, a, reply);
  }

  lemma StoreFailedFrame(s: State, e: Event)
    requires Enabled(s, e) && e.StoreFailed?
    ensures A.OnlyAttempt(s, Next(s, e), e.attempt)
  {
    A.StoreFrame(s, e.attempt, CallOf(RowOf(s, e.attempt).msg, s.attempts[e.attempt].stage.phase));
  }

  lemma LeaseFrame(s: State, e: Event)
    requires Enabled(s, e) && (e.Heartbeat? || e.Renew? || e.Release? || e.Crash?)
    ensures A.OnlyAttempt(s, Next(s, e), e.attempt)
  {
    hide Granted, Renewed, LeaseStore.Released;
  }

  lemma ClaimFrame(s: State, e: Event)
    requires Enabled(s, e) && (e.Claim? || e.ClaimFailed?)
    ensures A.OnlyAttempt(s, Next(s, e), e.attempt)
  {
    hide Start, StageAfter, Holds;
  }

  lemma OutcomeFrame(s: State, e: Event)
    requires Enabled(s, e) && (e.Finish? || e.FinishFailed? || e.Reschedule?)
    ensures A.OnlyAttempt(s, Next(s, e), e.attempt)
  {
  }

  lemma ForeignStep(s: State, e: Event, b: nat)
    requires A.Inv(s) && Enabled(s, e) && b in s.bindings && ByAttempt(e) && !Of(s, e.attempt, b)
    ensures Foreign(s, Next(s, e), e.attempt, b)
  {
    hide Next, Enabled, A.Inv, A.OnlyAttempt;
    AttemptFrame(s, e);
    BindingKept(s, e, b);
  }

  lemma OthersElsewhere(s: State, e: Event, b: nat)
    requires A.Inv(s) && Enabled(s, e) && b in s.bindings && Undisturbed(s, e, b)
    requires ByAttempt(e) ==> !Of(s, e.attempt, b)
    ensures Elsewhere(s, Next(s, e), b)
  {
    hide Next, Enabled, A.Inv, Elsewhere, Foreign, Undisturbed, Of;
    if ByAttempt(e) {
      ForeignStep(s, e, b);
      ForeignIsElsewhere(s, Next(s, e), e.attempt, b);
    } else {
      TablesElsewhere(s, e, b);
    }
  }

  lemma TablesElsewhere(s: State, e: Event, b: nat)
    requires A.Inv(s) && Enabled(s, e) && b in s.bindings && Undisturbed(s, e, b) && !ByAttempt(e)
    ensures Elsewhere(s, Next(s, e), b)
  {
    hide A.Owned, A.Logged;
  }

  // ---------------------------------------------------------------------------------------------
  // Steps of its own attempts

  ghost predicate Moves(s: State, s': State, a: nat, b: nat) {
    && A.OnlyAttempt(s, s', a) && Of(s, a, b)
    && b in s.bindings && b in s'.bindings && s'.bindings[b].generation == s.bindings[b].generation
    && var x, x' := s.attempts[a], s'.attempts[a];
       && x'.claimed == x.claimed && (Over(x.stage) ==> Over(x'.stage))
       && (x.claimed ==> Fated(s.rows[x.row].msg, x'.stage, s'.rows[x.row].state))
       && (!x.claimed ==> s'.rows == s.rows && (x'.stage.Leased? || Over(x'.stage)))
  }

  lemma MoveKeeps(s: State, s': State, a: nat, visits: seq<Visit>, b: nat)
    requires A.Inv(s) && Moves(s, s', a, b) && InOrder(s, visits, b) && Complete(s, visits, b)
    ensures InOrder(s', visits, b) && Complete(s', visits, b)
  {
    hide A.Typed, A.Logged, VisitedRow, Visited, Fated;
    forall i | 0 <= i < |visits| ensures VisitOk(s', visits[i], b) {
      assert VisitOk(s, visits[i], b);
    }
    if s.attempts[a].claimed {
      VisitHasRow(s, a, visits, b);
    }
  }

  lemma VisitHasRow(s: State, a: nat, visits: seq<Visit>, b: nat)
    requires InOrder(s, visits, b) && Visited(visits, a)
    ensures a in s.attempts && VisitedRow(visits, s.attempts[a].row)
  {
    var i :| 0 <= i < |visits| && visits[i].attempt == a;
    assert VisitOk(s, visits[i], b);
  }

  lemma VisitOf(s: State, a: nat, visits: seq<Visit>, b: nat) returns (i: nat)
    requires b in s.bindings && InOrder(s, visits, b) && Complete(s, visits, b) && Of(s, a, b) && s.attempts[a].claimed
    ensures i < |visits| && visits[i].attempt == a && VisitOk(s, visits[i], b)
    ensures Over(s.attempts[a].stage) || i == |visits| - 1
  {
    i :| 0 <= i < |visits| && visits[i].attempt == a;
  }

  lemma OwnFate(s: State, a: nat, visits: seq<Visit>, b: nat)
    requires Table(s, visits, b) && Of(s, a, b)
    ensures s.attempts[a].claimed ==> Fated(RowOf(s, a).msg, s.attempts[a].stage, RowOf(s, a).state)
    ensures !s.attempts[a].claimed ==> s.attempts[a].stage.Leased? || Over(s.attempts[a].stage)
    ensures s.attempts[a].lapsed ==> !Holds(s, a, b)
  {
    if s.attempts[a].claimed {
      var i := VisitOf(s, a, visits, b);
    }
  }

  /** Whatever an undisturbed attempt does outside its projection leads its row to its fate. */
  lemma OwnMoves(s: State, e: Event, visits: seq<Visit>, b: nat)
    requires A.Inv(s) && Table(s, visits, b) && KeepsLease(s, b)
    requires Enabled(s, e) && Undisturbed(s, e, b) && ByAttempt(e) && Of(s, e.attempt, b)
    requires !e.Await? && e != Claim(e.attempt, true)
    ensures Moves(s, Next(s, e), e.attempt, b)
  {
    hide A.Inv, Table, Next, Enabled, Effect, Moves;
    var a := e.attempt;
    TableHasBinding(s, visits, b);
    OwnFate(s, a, visits, b);
    AttemptFrame(s, e);
    NotAwaiting(s, e, b);
    BindingKept(s, e, b);
    if e.Claim? || e.Reschedule? || e.Crash? {
      Withdraws(s, e, b);
    } else if e.Renew? {
      Renews(s, e, b);
    } else if e.Finish? {
      Records(s, e, b);
    } else {
      Minds(s, e, b);
    }
  }

  lemma TableHasBinding(s: State, visits: seq<Visit>, b: nat)
    requires Table(s, visits, b)
    ensures b in s.bindings
  {
  }

  lemma NotAwaiting(s: State, e: Event, b: nat)
    requires Enabled(s, e) && Undisturbed(s, e, b) && ByAttempt(e) && !e.Await? && Of(s, e.attempt, b)
    ensures e != Reassign(b) && !AwaitsOn(s, e, b) && !e.ClaimFailed? && !e.StoreFailed? && !e.FinishFailed?
  {
  }

  /** What `OwnFate` says, and the frame of the event. */
  ghost predicate Owns(s: State, e: Event, b: nat) {
    && Enabled(s, e) && ByAttempt(e) && Of(s, e.attempt, b) && A.OnlyAttempt(s, Next(s, e), e.attempt)
    && b in s.bindings && b in Next(s, e).bindings && Next(s, e).bindings[b] == s.bindings[b] && Undisturbed(s, e, b)
    && var x := s.attempts[e.attempt];
       && (x.claimed ==> Fated(RowOf(s, e.attempt).msg, x.stage, RowOf(s, e.attempt).state))
       && (!x.claimed ==> x.stage.Leased? || Over(x.stage))
  }

  lemma Withdraws(s: State, e: Event, b: nat)
    requires Owns(s, e, b) && (e.Claim? || e.Reschedule? || e.Crash?) && e != Claim(e.attempt, true)
    ensures Moves(s, Next(s, e), e.attempt, b)
  {
    hide A.OnlyAttempt;
  }

  lemma Renews(s: State, e: Event, b: nat)
    requires Owns(s, e, b) && e.Renew? && KeepsLease(s, b) && (s.attempts[e.attempt].lapsed ==> !Holds(s, e.attempt, b))
    ensures Moves(s, Next(s, e), e.attempt, b)
  {
    hide A.OnlyAttempt;
  }

  lemma Records(s: State, e: Event, b: nat)
    requires Owns(s, e, b) && e.Finish?
    ensures Moves(s, Next(s, e), e.attempt, b)
  {
    hide A.OnlyAttempt;
  }

  lemma Minds(s: State, e: Event, b: nat)
    requires Owns(s, e, b) && (e.Heartbeat? || e.Release?)
    ensures Moves(s, Next(s, e), e.attempt, b)
  {
    hide A.OnlyAttempt;
  }

  /** The fate of a row whose claim was just won. */
  lemma ClaimIsFated(place: Place, m: Message)
    ensures Fated(m, StageAfter(Start(place, m)), Sending)
  {
  }

  /** A claim under the lease finds every earlier visit over. */
  lemma ClaimComesLast(s: State, a: nat, visits: seq<Visit>, b: nat)
    requires A.Inv(s) && Table(s, visits, b) && Enabled(s, Claim(a, true)) && Of(s, a, b)
    requires KeepsLease(Next(s, Claim(a, true)), b)
    ensures !s.attempts[a].claimed
    ensures forall i | 0 <= i < |visits| :: visits[i].attempt < a && Over(s.attempts[visits[i].attempt].stage)
    ensures Fresh(Next(s, Claim(a, true)), VisitsAfter(s, Claim(a, true), visits, b), b)
  {
    var e := Claim(a, true);
    var s' := Next(s, e);
    OwnFate(s, a, visits, b);
    ClaimIsFated(s.bindings[b].place, RowOf(s, a).msg);
    assert s'.leases == s.leases && s'.clock == s.clock;
    assert Of(s', a, b) && s'.attempts[a].claimed && !Over(s'.attempts[a].stage);
    assert Holds(s', a, b);
    forall i | 0 <= i < |visits| ensures visits[i].attempt < a && Over(s.attempts[visits[i].attempt].stage) {
      assert VisitOk(s, visits[i], b);
      var c := visits[i].attempt;
      assert c != a && s'.attempts[c] == s.attempts[c] && Of(s', c, b);
    }
  }

  lemma ClaimKeeps(s: State, a: nat, visits: seq<Visit>, b: nat)
    requires A.Inv(s) && Table(s, visits, b) && Enabled(s, Claim(a, true)) && Of(s, a, b)
    requires KeepsLease(Next(s, Claim(a, true)), b)
    ensures var s', more := Next(s, Claim(a, true)), VisitsAfter(s, Claim(a, true), visits, b);
            InOrder(s', more, b) && b in s'.bindings && Complete(s', more, b)
  {
    var e := Claim(a, true);
    ClaimComesLast(s, a, visits, b);
    ClaimIsFated(s.bindings[b].place, RowOf(s, a).msg);
    AttemptFrame(s, e);
    BindingKept(s, e, b);
    ClaimSets(s, a);
    ClaimExtends(s, Next(s, e), a, visits, b);
  }

  lemma ClaimSets(s: State, a: nat)
    requires Enabled(s, Claim(a, true))
    ensures var s' := Next(s, Claim(a, true));
            && a in s'.attempts && s'.attempts[a].claimed && s'.attempts[a].row == s.attempts[a].row
            && s'.attempts[a].stage == StageAfter(Start(s.bindings[BindingOf(s, a)].place, RowOf(s, a).msg))
            && s'.rows[s.attempts[a].row].state == Sending && RowOf(s, a).state.Queued?
            && s'.creations == s.creations
  {
    hide Start, StageAfter;
  }

  lemma ClaimExtends(s: State, s': State, a: nat, visits: seq<Visit>, b: nat)
    requires A.Inv(s) && b in s.bindings && b in s'.bindings && s'.bindings[b] == s.bindings[b]
    requires InOrder(s, visits, b) && Complete(s, visits, b) && Of(s, a, b) && A.OnlyAttempt(s, s', a)
    requires s'.attempts[a].claimed && s'.rows[s.attempts[a].row].state.Sending? && RowOf(s, a).state.Queued?
    requires Fated(RowOf(s, a).msg, s'.attempts[a].stage, Sending)
    requires forall i | 0 <= i < |visits| :: visits[i].attempt < a && Over(s.attempts[visits[i].attempt].stage)
    ensures var more := visits + [Visit(a, s.attempts[a].row, RowOf(s, a).msg)];
            InOrder(s', more, b) && Complete(s', more, b)
  {
    hide A.Typed, A.Logged, A.Owned, Fated;
    var v := Visit(a, s.attempts[a].row, RowOf(s, a).msg);
    var more := visits + [v];
    forall i | 0 <= i < |visits| ensures VisitOk(s', more[i], b) {
      assert VisitOk(s, visits[i], b);
      NotQueued(s, visits[i], b);
    }
    assert more[|visits|] == v && VisitOk(s', v, b);
    forall c | Visited(visits, c) ensures Visited(more, c) {
      var i :| 0 <= i < |visits| && visits[i].attempt == c;
      assert more[i].attempt == c;
    }
    forall r | VisitedRow(visits, r) ensures VisitedRow(more, r) {
      var i :| 0 <= i < |visits| && visits[i].row == r;
      assert more[i].row == r;
    }
  }

  lemma NotQueued(s: State, v: Visit, b: nat)
    requires VisitOk(s, v, b)
    ensures !s.rows[v.row].state.Queued?
  {
  }

  // ---------------------------------------------------------------------------------------------
  // The thread between and during visits

  ghost function Current(s: State, posts: seq<Entry>, ambiguous: bool, clock: nat, b: nat): Thread
    requires b in s.bindings
  {
    Thread(posts, s.bindings[b].working, s.bindings[b].statusPost, s.bindings[b].statusVersion, ambiguous, clock)
  }

  /** The last visit is suspended in its projection. */
  ghost predicate Projecting(s: State, visits: seq<Visit>) {
    visits != [] &&
    var v := visits[|visits| - 1]; v.attempt in s.attempts && s.attempts[v.attempt].stage.Applying?
  }

  /** The stored posts and the thread are those of the replay, under Slack's stamps. */
  ghost predicate Even(s: State, posts: seq<Entry>, visits: seq<Visit>, b: nat)
    requires b in s.bindings
  {
    var t := Replay(s.bindings[b].place, Messages(visits));
    Current(s, posts, t.ambiguous, 0, b) == NamedThread(t, Stamps(s.creations, visits), 0)
  }

  /** The thread before the last visit. */
  function Earlier(place: Place, visits: seq<Visit>): Thread
    requires visits != []
  {
    Replay(place, Messages(visits[..|visits| - 1]))
  }

  /** The projection of the last visit run alone, its post stamped `clock`. */
  function Alone(place: Place, creations: seq<Creation>, visits: seq<Visit>, clock: nat): (Thread, Phase)
    requires visits != []
  {
    var n := |visits| - 1;
    RunAlone(visits[n].msg, Start(place, visits[n].msg), NamedThread(Earlier(place, visits), Stamps(creations, visits[..n]), clock))
  }

  /** Going on alone from `p` ends as the whole projection of the last visit alone would. */
  ghost predicate Follows(s: State, posts: seq<Entry>, visits: seq<Visit>, b: nat, clock: nat, p: Phase)
    requires b in s.bindings && visits != []
  {
    var m, place := visits[|visits| - 1].msg, s.bindings[b].place;
    && (p.Returned? || p.Threw? || Fits(m, p))
    && Alone(place, s.creations, visits, clock) ==
         RunAlone(m, p, Current(s, posts, Earlier(place, visits).ambiguous, clock, b))
  }

  ghost predicate Midway(s: State, posts: seq<Entry>, visits: seq<Visit>, b: nat, clock: nat)
    requires b in s.bindings && Projecting(s, visits)
  {
    var p := s.attempts[visits[|visits| - 1].attempt].stage.phase;
    Fits(visits[|visits| - 1].msg, p) && Follows(s, posts, visits, b, clock, p)
  }

  predicate MayStamp(creations: seq<Creation>, a: nat, stamp: nat) {
    PostOf(creations, a).Some? ==> PostOf(creations, a).value == stamp
  }

  ghost predicate Agrees(s: State, posts: seq<Entry>, visits: seq<Visit>, b: nat)
    requires b in s.bindings
  {
    if Projecting(s, visits) then
      forall clock | MayStamp(s.creations, visits[|visits| - 1].attempt, clock) :: Midway(s, posts, visits, b, clock)
    else Even(s, posts, visits, b)
  }

  /** Nothing that `Agrees` looks at changes. */
  ghost predicate Still(s: State, s': State, visits: seq<Visit>, b: nat) {
    && b in s.bindings && b in s'.bindings && s'.bindings[b] == s.bindings[b]
    && (forall i | 0 <= i < |visits| :: PostOf(s'.creations, visits[i].attempt) == PostOf(s.creations, visits[i].attempt))
    && (Projecting(s', visits) <==> Projecting(s, visits))
    && (Projecting(s, visits) ==>
          var a := visits[|visits| - 1].attempt; s'.attempts[a].stage == s.attempts[a].stage)
  }

  lemma SameStamps(creations: seq<Creation>, creations': seq<Creation>, visits: seq<Visit>)
    requires forall i | 0 <= i < |visits| :: PostOf(creations', visits[i].attempt) == PostOf(creations, visits[i].attempt)
    ensures Stamps(creations', visits) == Stamps(creations, visits)
  {
    hide PostOf;
  }

  lemma StillAgrees(s: State, s': State, posts: seq<Entry>, visits: seq<Visit>, b: nat)
    requires Still(s, s', visits, b) && Agrees(s, posts, visits, b)
    ensures Agrees(s', posts, visits, b)
  {
    hide RunAlone, Start, Replay, NamedThread, PostOf, Fits, Stamps;
    var n := |visits| - 1;
    SameStamps(s.creations, s'.creations, visits);
    if Projecting(s, visits) {
      SameStamps(s.creations, s'.creations, visits[..n]);
      forall clock | MayStamp(s'.creations, visits[n].attempt, clock) ensures Midway(s', posts, visits, b, clock) {
        assert Midway(s, posts, visits, b, clock);
      }
    }
  }

  // ---------------------------------------------------------------------------------------------
  // One await of the last visit

  /** The calls of an undisturbed projection answer and do what they would do to the conversation alone. */
  ghost predicate Faithful(s: State, posts: seq<Entry>, a: nat, b: nat, ambiguous: bool, clock: nat) {
    && Enabled(s, Await(a, Accept)) && BindingOf(s, a) == b && RowOf(s, a).generation == s.bindings[b].generation
    && var call := CallOf(RowOf(s, a).msg, s.attempts[a].stage.phase);
       && (call.HasAmbiguousCreation? ==> (ambiguous <==> AmbiguousCreation(s, s.attempts[a].row)))
       && (call.Update? ==> Shows(posts, call.post))
       && (call.Post? ==> clock == s.now)
  }

  lemma ServeMatches(s: State, posts: seq<Entry>, a: nat, b: nat, ambiguous: bool, clock: nat)
    requires Faithful(s, posts, a, b, ambiguous, clock)
    ensures var s' := Next(s, Await(a, Accept)); var m, p := RowOf(s, a).msg, s.attempts[a].stage.phase;
      var (t, answer) := Serve(Current(s, posts, ambiguous, clock, b), CallOf(m, p));
      && b in s'.bindings && s'.bindings[b].place == s.bindings[b].place
      && t == Current(s', PostsAfter(s, Await(a, Accept), posts, b), ambiguous, clock, b)
      && a in s'.attempts && s'.attempts[a].stage == StageAfter(Resume(m, p, answer))
      && s'.creations ==
           s.creations + (if CallOf(m, p).Post? then
             [Creation(a, s.attempts[a].row, b, m.kind.Lifecycle?, s.now, false)] else [])
  {
    hide Resume, StageAfter, Rewrite, Without, Shows, AmbiguousCreation;
    var call := CallOf(RowOf(s, a).msg, s.attempts[a].stage.phase);
    if IsSlackCall(call) {
      SlackMatches(s, posts, a, b, ambiguous, clock);
    } else {
      StoreMatches(s, posts, a, b, ambiguous, clock);
    }
  }

  lemma SlackMatches(s: State, posts: seq<Entry>, a: nat, b: nat, ambiguous: bool, clock: nat)
    requires Faithful(s, posts, a, b, ambiguous, clock)
    requires IsSlackCall(CallOf(RowOf(s, a).msg, s.attempts[a].stage.phase))
    ensures var call := CallOf(RowOf(s, a).msg, s.attempts[a].stage.phase);
      var (t, answer) := Serve(Current(s, posts, ambiguous, clock, b), call);
      var (s1, reply) := ServeSlack(s, a, call, Accept);
      && answer == reply && b in s1.bindings
      && t == Current(s1, PostsAfter(s, Await(a, Accept), posts, b), ambiguous, clock, b)
  {
    hide Rewrite, Without, Shows;
  }

  lemma StoreMatches(s: State, posts: seq<Entry>, a: nat, b: nat, ambiguous: bool, clock: nat)
    requires Faithful(s, posts, a, b, ambiguous, clock)
    requires !IsSlackCall(CallOf(RowOf(s, a).msg, s.attempts[a].stage.phase))
    ensures var call := CallOf(RowOf(s, a).msg, s.attempts[a].stage.phase);
      var (t, answer) := Serve(Current(s, posts, ambiguous, clock, b), call);
      var (s1, reply) := ServeStore(s, a, call);
      && answer == reply && b in s1.bindings && s1.bindings[b].place == s.bindings[b].place
      && t == Current(s1, PostsAfter(s, Await(a, Accept), posts, b), ambiguous, clock, b)
  {
    hide AmbiguousCreation;
  }

  /** The projecting attempt is the last visit. */
  lemma LastVisit(s: State, a: nat, visits: seq<Visit>, b: nat)
    requires Table(s, visits, b) && Of(s, a, b) && s.attempts[a].stage.Applying?
    ensures visits != [] && Projecting(s, visits)
    ensures var v := visits[|visits| - 1];
      && v.attempt == a && v.row == s.attempts[a].row && v.msg == RowOf(s, a).msg && VisitOk(s, v, b)
      && RowOf(s, a).generation == s.bindings[b].generation
  {
    var i := VisitOf(s, a, visits, b);
  }

  lemma InTable(s: State, visits: seq<Visit>, b: nat)
    requires Table(s, visits, b)
    ensures b in s.bindings && InOrder(s, visits, b) && Complete(s, visits, b)
  {
  }

  /** The ambiguity check finds exactly the earlier lifecycle messages without a version. */
  lemma AmbiguityIsUnversioned(s: State, a: nat, visits: seq<Visit>, b: nat)
    requires A.Inv(s) && Table(s, visits, b) && Of(s, a, b) && s.attempts[a].stage.Applying?
    ensures visits != []
    ensures AmbiguousCreation(s, s.attempts[a].row) <==> R.Unversioned(Messages(visits[..|visits| - 1]))
  {
    hide A.Inv, Table, InOrder, Complete, VisitOk;
    LastVisit(s, a, visits, b);
    InTable(s, visits, b);
    var n, row := |visits| - 1, s.attempts[a].row;
    var before := Messages(visits[..n]);
    if AmbiguousCreation(s, row) {
      var r :| r in s.rows && r != row && s.rows[r].binding == b && s.rows[r].msg.kind.Lifecycle? && InFlight(s.rows[r].state);
      var i := InFlightIsVisited(s, r, visits, b);
      EarlierIsSettled(s, a, visits, b, i);
      assert before[i].kind.Lifecycle? && before[i].version.None?;
    }
    if R.Unversioned(before) {
      var i :| 0 <= i < |before| && before[i].kind.Lifecycle? && before[i].version.None?;
      EarlierIsSettled(s, a, visits, b, i);
    }
  }

  lemma InFlightIsVisited(s: State, r: nat, visits: seq<Visit>, b: nat) returns (i: nat)
    requires b in s.bindings && Complete(s, visits, b) && r in s.rows && s.rows[r].binding == b && InFlight(s.rows[r].state)
    ensures i < |visits| && visits[i].row == r
  {
    assert VisitedRow(visits, r);
    i :| 0 <= i < |visits| && visits[i].row == r;
  }

  lemma EarlierIsSettled(s: State, a: nat, visits: seq<Visit>, b: nat, i: nat)
    requires A.Inv(s) && InOrder(s, visits, b) && i < |visits| - 1 && visits[|visits| - 1].attempt == a
    ensures var v := visits[i]; var row := visits[|visits| - 1].row;
      && v.row in s.rows && s.rows[v.row].binding == b && s.rows[v.row].msg == v.msg && v.row != row
      && (v.msg.kind.Lifecycle? ==> (InFlight(s.rows[v.row].state) <==> v.msg.version.None?))
  {
    hide A.Typed, A.Logged;
    assert VisitOk(s, visits[i], b) && VisitOk(s, visits[|visits| - 1], b);
  }

  /** A projection that goes well alone never edits a post that is not there. */
  lemma UpdateIsShown(s: State, posts: seq<Entry>, visits: seq<Visit>, b: nat, clock: nat)
    requires b in s.bindings && Projecting(s, visits) && Midway(s, posts, visits, b, clock)
    ensures var v := visits[|visits| - 1]; var call := CallOf(v.msg, s.attempts[v.attempt].stage.phase);
            call.Update? ==> Shows(posts, call.post)
  {
    hide Start, NamedThread, Shows, Rewrite, Alone, Earlier;
    var n, place := |visits| - 1, s.bindings[b].place;
    var m, p := visits[n].msg, s.attempts[visits[n].attempt].stage.phase;
    var call := CallOf(m, p);
    if call.Update? && !Shows(posts, call.post) {
      AloneIsClean(place, s.creations, visits, clock);
      var cur := Current(s, posts, Earlier(place, visits).ambiguous, clock, b);
      RunStep(m, p, cur);
      assert Serve(cur, call) == (cur, SlackError(Refused));
      RunEnds(m, Threw(SlackFailed(Refused)), cur, []);
    }
  }

  lemma AloneIsClean(place: Place, creations: seq<Creation>, visits: seq<Visit>, clock: nat)
    requires visits != [] && var m := visits[|visits| - 1].msg; m.kind.Lifecycle? ==> m.version.Some?
    ensures var end := Alone(place, creations, visits, clock).1;
      end.Returned? || (end == Threw(ProjectionBlocked) && visits[|visits| - 1].msg.kind.Lifecycle?)
  {
    hide RunAlone, NamedThread, Replay, Stamps;
    var n := |visits| - 1;
    var t := NamedThread(Earlier(place, visits), Stamps(creations, visits[..n]), clock);
    ReplayIsSound(place, Messages(visits[..n]));
    NamedPostsShown(Earlier(place, visits), Stamps(creations, visits[..n]), clock);
    CleanEnd(place, t, visits[n].msg);
  }

  /** Everything an undisturbed await is about. */
  ghost predicate Awaits(s: State, posts: seq<Entry>, visits: seq<Visit>, a: nat, b: nat) {
    && A.Inv(s) && Table(s, visits, b) && Agrees(s, posts, visits, b)
    && Enabled(s, Await(a, Accept)) && Of(s, a, b)
  }

  lemma AwaitIsFaithful(s: State, posts: seq<Entry>, visits: seq<Visit>, a: nat, b: nat, clock: nat)
    requires Awaits(s, posts, visits, a, b) && MayStamp(s.creations, a, clock)
    requires CallOf(RowOf(s, a).msg, s.attempts[a].stage.phase).Post? ==> clock == s.now
    ensures b in s.bindings && visits != [] && Projecting(s, visits) && Midway(s, posts, visits, b, clock)
    ensures Faithful(s, posts, a, b, Earlier(s.bindings[b].place, visits).ambiguous, clock)
  {
    hide A.Inv, Table, Midway, AmbiguousCreation, Replay, Shows, PostOf;
    TableHasBinding(s, visits, b);
    LastVisit(s, a, visits, b);
    AmbiguityIsUnversioned(s, a, visits, b);
    ReplayIsSound(s.bindings[b].place, Messages(visits[..|visits| - 1]));
    UpdateIsShown(s, posts, visits, b, clock);
  }

  lemma AwaitShape(s: State, a: nat)
    requires Enabled(s, Await(a, Accept))
    ensures Present(s, a) && s.attempts[a].stage.Applying? && Fits(RowOf(s, a).msg, s.attempts[a].stage.phase)
  {
  }

  lemma PostAppended(creations: seq<Creation>, e: Creation, a: nat)
    ensures PostOf(creations + [e], a) == if e.attempt == a then Some(e.post) else PostOf(creations, a)
  {
    assert (creations + [e])[..|creations|] == creations;
  }

  /** The stamps of earlier visits stay when the last one posts. */
  lemma EarlierStampsStay(s: State, creations': seq<Creation>, a: nat, visits: seq<Visit>, b: nat)
    requires InOrder(s, visits, b) && visits != [] && visits[|visits| - 1].attempt == a
    requires creations' == s.creations || exists e: Creation | e.attempt == a :: creations' == s.creations + [e]
    ensures Stamps(creations', visits[..|visits| - 1]) == Stamps(s.creations, visits[..|visits| - 1])
  {
    hide PostOf, Stamps;
    if creations' != s.creations {
      var e: Creation :| e.attempt == a && creations' == s.creations + [e];
      forall i | 0 <= i < |visits| - 1 ensures PostOf(creations', visits[i].attempt) == PostOf(s.creations, visits[i].attempt) {
        PostAppended(s.creations, e, visits[i].attempt);
      }
    }
    SameStamps(s.creations, creations', visits[..|visits| - 1]);
  }

  lemma SameAlone(place: Place, creations: seq<Creation>, creations': seq<Creation>, visits: seq<Visit>, clock: nat)
    requires visits != [] && Stamps(creations', visits[..|visits| - 1]) == Stamps(creations, visits[..|visits| - 1])
    ensures Alone(place, creations', visits, clock) == Alone(place, creations, visits, clock)
  {
  }

  /** The projection goes on as it would alone. */
  lemma AwaitGoesOn(s: State, posts: seq<Entry>, visits: seq<Visit>, a: nat, b: nat, clock: nat) returns (p': Phase)
    requires Awaits(s, posts, visits, a, b) && MayStamp(s.creations, a, clock)
    requires CallOf(RowOf(s, a).msg, s.attempts[a].stage.phase).Post? ==> clock == s.now
    ensures var s' := Next(s, Await(a, Accept));
      && visits != [] && b in s'.bindings && a in s'.attempts && s'.attempts[a].stage == StageAfter(p')
      && Follows(s', PostsAfter(s, Await(a, Accept), posts, b), visits, b, clock, p')
  {
    hide A.Inv, Table, Next, Enabled, Serve, Resume, Alone, Earlier, RunAlone, PostOf, Faithful, Current, InOrder, Complete;
    AwaitIsFaithful(s, posts, visits, a, b, clock);
    AwaitShape(s, a);
    LastVisit(s, a, visits, b);
    InTable(s, visits, b);
    var m, p := RowOf(s, a).msg, s.attempts[a].stage.phase;
    var place, before := s.bindings[b].place, Earlier(s.bindings[b].place, visits);
    var s' := Next(s, Await(a, Accept));
    var cur := Current(s, posts, before.ambiguous, clock, b);
    p' := Resume(m, p, Serve(cur, CallOf(m, p)).1);
    ServeMatches(s, posts, a, b, before.ambiguous, clock);
    RunStep(m, p, cur);
    ResumeFits(m, p, Serve(cur, CallOf(m, p)).1);
    EarlierStampsStay(s, s'.creations, a, visits, b);
    SameAlone(place, s.creations, s'.creations, visits, clock);
  }

  lemma ResumeFits(m: Message, p: Phase, answer: Answer)
    requires Fits(m, p)
    ensures var p' := Resume(m, p, answer); p'.Returned? || p'.Threw? || Fits(m, p')
  {
  }

  lemma {:induction false} PostFound(creations: seq<Creation>, a: nat) returns (i: nat)
    requires PostOf(creations, a).Some?
    ensures i < |creations| && creations[i].attempt == a && creations[i].post == PostOf(creations, a).value
  {
    i := |creations| - 1;
    if creations[i].attempt != a {
      i := PostFound(creations[..i], a);
    }
  }

  lemma NotPostedYet(s: State, a: nat)
    requires A.Inv(s) && Enabled(s, Await(a, Accept))
    requires CallOf(RowOf(s, a).msg, s.attempts[a].stage.phase).Post?
    ensures PostOf(s.creations, a).None?
  {
    hide A.Typed, A.Owned, Resume, PostOf;
    A.PostIsLast(RowOf(s, a).msg, s.attempts[a].stage.phase, Done);
    forall i | 0 <= i < |s.creations| ensures s.creations[i].attempt != a {
      assert A.Accounted(s.rows, s.attempts, s.creations[i]);
    }
    if PostOf(s.creations, a).Some? {
      var i := PostFound(s.creations, a);
    }
  }

  /** The post of an await is the attempt's own. */
  lemma AwaitStamps(s: State, a: nat)
    requires A.Inv(s) && Enabled(s, Await(a, Accept))
    ensures var s' := Next(s, Await(a, Accept)); var call := CallOf(RowOf(s, a).msg, s.attempts[a].stage.phase);
      PostOf(s'.creations, a) == if call.Post? then Some(s.now) else PostOf(s.creations, a)
    ensures var call := CallOf(RowOf(s, a).msg, s.attempts[a].stage.phase); call.Post? ==> PostOf(s.creations, a).None?
  {
    hide PostOf, Resume, StageAfter, ServeStore;
    var call := CallOf(RowOf(s, a).msg, s.attempts[a].stage.phase);
    if call.Post? {
      NotPostedYet(s, a);
      PostAppended(s.creations, Create(s, a, false).creations[|s.creations|], a);
    } else if !IsSlackCall(call) {
      A.StoreFrame(s, a, call);
    }
  }

  lemma DeliverIsRun(place: Place, t: Thread, m: Message)
    ensures var d, r := Deliver(place, t, m), RunAlone(m, Start(place, m), t).0;
            d.entries == r.entries && d.working == r.working && d.status == r.status && d.version == r.version
  {
  }

  /** A projection that has come to its end leaves the thread of the replay. */
  lemma EndIsEven(s: State, posts: seq<Entry>, visits: seq<Visit>, b: nat, clock: nat, p: Phase)
    requires b in s.bindings && visits != [] && Follows(s, posts, visits, b, clock, p) && (p.Returned? || p.Threw?)
    requires Distinct(Stamps(s.creations, visits)) && clock == StampOf(s.creations, visits[|visits| - 1].attempt)
    ensures Even(s, posts, visits, b)
  {
    hide RunAlone, NamedThread, Replay, Stamps, Deliver, StampOf, Distinct;
    var n, place := |visits| - 1, s.bindings[b].place;
    var m, stamps := visits[n].msg, Stamps(s.creations, visits);
    var before := Messages(visits[..n]);
    assert Messages(visits) == before + [m];
    assert stamps[..n] == Stamps(s.creations, visits[..n]);
    DeliverNamed(place, before, m, stamps);
    DeliverIsRun(place, NamedThread(Earlier(place, visits), stamps[..n], clock), m);
    RunAloneIsRun(m, p, Current(s, posts, Earlier(place, visits).ambiguous, clock, b));
    NamedFields(Replay(place, Messages(visits)), stamps, clock + 1);
  }

  lemma RunAloneIsRun(m: Message, p: Phase, t: Thread)
    requires p.Returned? || p.Threw?
    ensures RunAlone(m, p, t) == (t, p)
  {
  }

  lemma NamedFields(t: Thread, stamps: seq<nat>, clock: nat)
    ensures NamedThread(t, stamps, clock) == NamedThread(t, stamps, 0).(clock := clock)
    ensures NamedThread(t, stamps, 0).ambiguous == t.ambiguous && NamedThread(t, stamps, 0).clock == 0
  {
  }

  lemma AwaitAgrees(s: State, posts: seq<Entry>, visits: seq<Visit>, a: nat, b: nat)
    requires Awaits(s, posts, visits, a, b) && Distinct(Stamps(Next(s, Await(a, Accept)).creations, visits))
    ensures var s' := Next(s, Await(a, Accept));
      && b in s'.bindings && a in s'.attempts && Agrees(s', PostsAfter(s, Await(a, Accept), posts, b), visits, b)
      && Present(s, a) && Fated(RowOf(s, a).msg, s'.attempts[a].stage, Sending)
  {
    hide A.Inv, Table, Next, Enabled, Follows, Stamps, Distinct, PostOf, Even, PostsAfter;
    AwaitShape(s, a);
    AwaitStamps(s, a);
    LastVisit(s, a, visits, b);
    var s', posts' := Next(s, Await(a, Accept)), PostsAfter(s, Await(a, Accept), posts, b);
    var call := CallOf(RowOf(s, a).msg, s.attempts[a].stage.phase);
    var stamp := if call.Post? then s.now else StampOf(s.creations, a);
    var p := AwaitGoesOn(s, posts, visits, a, b, stamp);
    if p.Returned? || p.Threw? {
      EndIsClean(s', posts', visits, b, stamp, p);
      EndIsEven(s', posts', visits, b, stamp, p);
    } else {
      assert s'.attempts[a].stage == Applying(p);
      forall clock | MayStamp(s'.creations, a, clock) ensures Midway(s', posts', visits, b, clock) {
        var p' := AwaitGoesOn(s, posts, visits, a, b, clock);
        FollowsFits(s', posts', visits, b, clock, p');
      }
      FollowsFits(s', posts', visits, b, stamp, p);
    }
  }

  lemma FollowsFits(s: State, posts: seq<Entry>, visits: seq<Visit>, b: nat, clock: nat, p: Phase)
    requires b in s.bindings && visits != [] && Follows(s, posts, visits, b, clock, p) && !p.Returned? && !p.Threw?
    ensures Fits(visits[|visits| - 1].msg, p)
  {
  }

  lemma EndIsClean(s: State, posts: seq<Entry>, visits: seq<Visit>, b: nat, clock: nat, p: Phase)
    requires b in s.bindings && visits != [] && Follows(s, posts, visits, b, clock, p) && (p.Returned? || p.Threw?)
    requires var m := visits[|visits| - 1].msg; m.kind.Lifecycle? ==> m.version.Some?
    ensures p.Returned? || (p == Threw(ProjectionBlocked) && visits[|visits| - 1].msg.kind.Lifecycle?)
  {
    hide Alone, RunAlone;
    var m, place := visits[|visits| - 1].msg, s.bindings[b].place;
    AloneIsClean(place, s.creations, visits, clock);
    RunAloneIsRun(m, p, Current(s, posts, Earlier(place, visits).ambiguous, clock, b));
  }

  // ---------------------------------------------------------------------------------------------
  // A claim begins the next visit

  lemma ClaimFollows(s: State, posts: seq<Entry>, visits: seq<Visit>, a: nat, b: nat, clock: nat)
    requires b in s.bindings && Even(s, posts, visits, b) && Enabled(s, Claim(a, true)) && BindingOf(s, a) == b
    ensures var s', more := Next(s, Claim(a, true)), VisitsAfter(s, Claim(a, true), visits, b);
      && b in s'.bindings && more != []
      && Follows(s', posts, more, b, clock, Start(s.bindings[b].place, RowOf(s, a).msg))
  {
    hide RunAlone, NamedThread, Replay, Stamps, Start, StageAfter;
    var place, m := s.bindings[b].place, RowOf(s, a).msg;
    var s', more := Next(s, Claim(a, true)), VisitsAfter(s, Claim(a, true), visits, b);
    var n := |visits|;
    assert more[..n] == visits && more[n].msg == m && s'.creations == s.creations && s'.bindings == s.bindings;
    NamedFields(Replay(place, Messages(visits)), Stamps(s.creations, visits), clock);
    StartFits(place, m);
  }

  lemma StartFits(place: Place, m: Message)
    ensures var p := Start(place, m); p == Threw(Unexpected) || Fits(m, p)
  {
  }

  lemma ClaimAgrees(s: State, posts: seq<Entry>, visits: seq<Visit>, a: nat, b: nat)
    requires A.Inv(s) && Table(s, visits, b) && Agrees(s, posts, visits, b)
    requires Enabled(s, Claim(a, true)) && Of(s, a, b) && KeepsLease(Next(s, Claim(a, true)), b)
    requires Distinct(Stamps(Next(s, Claim(a, true)).creations, VisitsAfter(s, Claim(a, true), visits, b)))
    ensures var s', more := Next(s, Claim(a, true)), VisitsAfter(s, Claim(a, true), visits, b);
      b in s'.bindings && Agrees(s', posts, more, b)
  {
    hide A.Inv, Table, Next, Enabled, Follows, Stamps, Distinct, Even, Start;
    ClaimComesLast(s, a, visits, b);
    TableHasBinding(s, visits, b);
    assert !Projecting(s, visits);
    var place, m := s.bindings[b].place, RowOf(s, a).msg;
    var s', more := Next(s, Claim(a, true)), VisitsAfter(s, Claim(a, true), visits, b);
    ClaimSets(s, a);
    StartFits(place, m);
    var p, stamp := Start(place, m), StampOf(s'.creations, a);
    ClaimFollows(s, posts, visits, a, b, stamp);
    if p.Threw? {
      EndIsEven(s', posts, more, b, stamp, p);
    } else {
      forall clock | MayStamp(s'.creations, a, clock) ensures Midway(s', posts, more, b, clock) {
        ClaimFollows(s, posts, visits, a, b, clock);
      }
    }
  }

  // ---------------------------------------------------------------------------------------------
  // Every event of an undisturbed run

  ghost predicate Inv(s: State, posts: seq<Entry>, visits: seq<Visit>, b: nat) {
    A.Inv(s) && b in s.bindings && Table(s, visits, b) && Agrees(s, posts, visits, b) && KeepsLease(s, b)
  }

  lemma OthersPostElsewhere(s: State, e: Event, a: nat)
    requires Enabled(s, e) && (e.Await? ==> e.attempt != a)
    ensures PostOf(Next(s, e).creations, a) == PostOf(s.creations, a)
  {
    hide PostOf, AwaitStep, StoreFailedStep, Start, StageAfter, Resume, CallOf;
    if e.Await? {
      A.AwaitFrame(s, e.attempt, e.reply);
      if Next(s, e).creations != s.creations {
        PostAppended(s.creations, Next(s, e).creations[|s.creations|], a);
      }
    } else if e.StoreFailed? {
      StoreCreatesNothing(s, e.attempt, e.landed);
    }
  }

  lemma StoreCreatesNothing(s: State, a: nat, landed: bool)
    requires Enabled(s, StoreFailed(a, landed))
    ensures StoreFailedStep(s, a, landed).creations == s.creations
  {
    A.StoreFrame(s, a, CallOf(RowOf(s, a).msg, s.attempts[a].stage.phase));
  }

  /** Whose events are neither an await nor a won claim on `b`. */
  ghost predicate Aside(s: State, e: Event, b: nat)
    requires Enabled(s, e)
  {
    ByAttempt(e) && Of(s, e.attempt, b) ==> !e.Await? && e != Claim(e.attempt, true)
  }

  lemma AsideLogs(s: State, e: Event, posts: seq<Entry>, visits: seq<Visit>, b: nat)
    requires A.Inv(s) && Enabled(s, e) && Aside(s, e, b)
    ensures PostsAfter(s, e, posts, b) == posts && VisitsAfter(s, e, visits, b) == visits
  {
    hide Next, Changed, A.Inv;
  }

  lemma AsideTable(s: State, e: Event, posts: seq<Entry>, visits: seq<Visit>, b: nat)
    requires Inv(s, posts, visits, b) && Enabled(s, e) && Undisturbed(s, e, b) && Aside(s, e, b)
    ensures Table(Next(s, e), visits, b)
    ensures Next(s, e).bindings[b] == s.bindings[b]
    ensures forall i | 0 <= i < |visits| :: SameOrOver(s, Next(s, e), visits[i].attempt)
  {
    hide A.Inv, Next, Enabled, Agrees, KeepsLease, Fresh, Honest, InOrder, Complete, Moves, Elsewhere, Undisturbed, Of;
    var s' := Next(s, e);
    HonestKept(s, e, b);
    FreshKept(s, e, visits, b);
    AsideBinding(s, e, b);
    BindingKept(s, e, b);
    if ByAttempt(e) && Of(s, e.attempt, b) {
      OwnFate(s, e.attempt, visits, b);
      OwnMoves(s, e, visits, b);
      MoveKeeps(s, s', e.attempt, visits, b);
      AttemptFrame(s, e);
      MovesOver(s, s', e, visits, b);
    } else {
      OthersElsewhere(s, e, b);
      ElsewhereKeeps(s, s', visits, b);
      ElsewhereSame(s, s', visits, b);
    }
  }

  lemma AsideBinding(s: State, e: Event, b: nat)
    requires A.Inv(s) && Enabled(s, e) && Undisturbed(s, e, b) && Aside(s, e, b) && b in s.bindings
    ensures e != Reassign(b) && !AwaitsOn(s, e, b)
  {
    hide Next;
  }

  /** The attempt keeps its stage, or is not in its projection before and after. */
  predicate SameOrOver(s: State, s': State, a: nat) {
    && a in s.attempts && a in s'.attempts
    && (s'.attempts[a].stage == s.attempts[a].stage || (!s.attempts[a].stage.Applying? && !s'.attempts[a].stage.Applying?))
  }

  lemma MovesOver(s: State, s': State, e: Event, visits: seq<Visit>, b: nat)
    requires Enabled(s, e) && s' == Next(s, e) && ByAttempt(e) && Of(s, e.attempt, b) && InOrder(s, visits, b)
    requires A.OnlyAttempt(s, s', e.attempt) && Undisturbed(s, e, b) && !e.Await? && e != Claim(e.attempt, true)
    requires !s.attempts[e.attempt].claimed ==> !s.attempts[e.attempt].stage.Applying?
    ensures forall i | 0 <= i < |visits| :: SameOrOver(s, s', visits[i].attempt)
  {
    hide Next, Enabled, A.OnlyAttempt;
    MoverIsOver(s, e, b);
    forall i | 0 <= i < |visits| ensures SameOrOver(s, s', visits[i].attempt) {
      assert VisitOk(s, visits[i], b);
      if visits[i].attempt != e.attempt {
        OthersStay(s, s', e.attempt, visits[i].attempt);
      }
    }
  }

  lemma OthersStay(s: State, s': State, a: nat, c: nat)
    requires A.OnlyAttempt(s, s', a) && c in s.attempts && c != a
    ensures c in s'.attempts && s'.attempts[c] == s.attempts[c]
  {
  }

  lemma MoverIsOver(s: State, e: Event, b: nat)
    requires Enabled(s, e) && ByAttempt(e) && Of(s, e.attempt, b) && Undisturbed(s, e, b)
    requires !e.Await? && e != Claim(e.attempt, true)
    requires !s.attempts[e.attempt].claimed ==> !s.attempts[e.attempt].stage.Applying?
    ensures SameOrOver(s, Next(s, e), e.attempt)
  {
  }

  lemma ElsewhereSame(s: State, s': State, visits: seq<Visit>, b: nat)
    requires Elsewhere(s, s', b) && InOrder(s, visits, b)
    ensures forall i | 0 <= i < |visits| :: SameOrOver(s, s', visits[i].attempt)
  {
    forall i | 0 <= i < |visits| ensures SameOrOver(s, s', visits[i].attempt) {
      assert VisitOk(s, visits[i], b);
    }
  }

  lemma AsideAgrees(s: State, e: Event, posts: seq<Entry>, visits: seq<Visit>, b: nat)
    requires Inv(s, posts, visits, b) && Enabled(s, e) && Undisturbed(s, e, b) && Aside(s, e, b)
    requires b in Next(s, e).bindings && Next(s, e).bindings[b] == s.bindings[b]
    requires forall i | 0 <= i < |visits| :: SameOrOver(s, Next(s, e), visits[i].attempt)
    ensures Agrees(Next(s, e), posts, visits, b)
  {
    hide A.Inv, Next, Enabled, Table, Agrees, KeepsLease, PostOf;
    var s' := Next(s, e);
    forall i | 0 <= i < |visits| ensures PostOf(s'.creations, visits[i].attempt) == PostOf(s.creations, visits[i].attempt) {
      VisitsAreOf(s, visits, b, i);
      OthersPostElsewhere(s, e, visits[i].attempt);
    }
    assert visits != [] ==> SameOrOver(s, s', visits[|visits| - 1].attempt);
    StillAgrees(s, s', posts, visits, b);
  }

  lemma VisitsAreOf(s: State, visits: seq<Visit>, b: nat, i: nat)
    requires Table(s, visits, b) && i < |visits|
    ensures Of(s, visits[i].attempt, b) && visits[i].attempt in s.attempts
  {
    assert VisitOk(s, visits[i], b);
  }

  lemma ClaimTable(s: State, posts: seq<Entry>, visits: seq<Visit>, a: nat, b: nat)
    requires Inv(s, posts, visits, b) && Enabled(s, Claim(a, true)) && Of(s, a, b)
    requires KeepsLease(Next(s, Claim(a, true)), b)
    ensures Table(Next(s, Claim(a, true)), VisitsAfter(s, Claim(a, true), visits, b), b)
  {
    hide A.Inv, Next, Enabled, Agrees, KeepsLease, Fresh, Honest, InOrder, Complete;
    ClaimKeeps(s, a, visits, b);
    ClaimComesLast(s, a, visits, b);
    HonestKept(s, Claim(a, true), b);
  }

  lemma AwaitTable(s: State, posts: seq<Entry>, visits: seq<Visit>, a: nat, b: nat)
    requires Inv(s, posts, visits, b) && Enabled(s, Await(a, Accept)) && Of(s, a, b)
    requires a in Next(s, Await(a, Accept)).attempts
    requires Fated(RowOf(s, a).msg, Next(s, Await(a, Accept)).attempts[a].stage, Sending)
    ensures Table(Next(s, Await(a, Accept)), visits, b)
  {
    hide A.Inv, Next, Enabled, Agrees, KeepsLease, Fresh, Honest, InOrder, Complete, Moves;
    var e := Await(a, Accept);
    AwaitShape(s, a);
    LastVisit(s, a, visits, b);
    OwnFate(s, a, visits, b);
    HonestKept(s, e, b);
    FreshKept(s, e, visits, b);
    AwaitMoves(s, a, visits, b);
    AwaitGeneration(s, a, b);
    MoveKeeps(s, Next(s, e), a, visits, b);
  }

  lemma AwaitMoves(s: State, a: nat, visits: seq<Visit>, b: nat)
    requires A.Inv(s) && Enabled(s, Await(a, Accept)) && Of(s, a, b) && b in s.bindings && s.attempts[a].claimed
    requires RowOf(s, a).state.Sending? && a in Next(s, Await(a, Accept)).attempts
    requires Fated(RowOf(s, a).msg, Next(s, Await(a, Accept)).attempts[a].stage, Sending)
    ensures Moves(s, Next(s, Await(a, Accept)), a, b)
  {
    hide A.Inv, Effect, Fated;
    A.AwaitFrame(s, a, Accept);
    OnlyStage(s, a, Accept);
    AwaitShape(s, a);
    AwaitGeneration(s, a, b);
  }

  lemma AwaitGeneration(s: State, a: nat, b: nat)
    requires Enabled(s, Await(a, Accept)) && Of(s, a, b) && b in s.bindings
    ensures var s' := Next(s, Await(a, Accept)); b in s'.bindings && s'.bindings[b].generation == s.bindings[b].generation
  {
    hide Resume, StageAfter;
  }

  /** The attempts of the visits after `e`, in the order of their leases. */
  lemma VisitsIncrease(s: State, e: Event, posts: seq<Entry>, visits: seq<Visit>, b: nat)
    requires Inv(s, posts, visits, b) && Enabled(s, e) && KeepsLease(Next(s, e), b)
    ensures var more := VisitsAfter(s, e, visits, b);
      && (forall i | 0 <= i < |more| :: more[i].attempt in Next(s, e).attempts)
      && (forall i, j | 0 <= i < j < |more| :: more[i].attempt < more[j].attempt)
  {
    hide A.Inv, Next, Agrees, KeepsLease;
    var more := VisitsAfter(s, e, visits, b);
    if e.Claim? && e.won && BindingOf(s, e.attempt) == b {
      ClaimComesLast(s, e.attempt, visits, b);
    }
    forall i | 0 <= i < |more| ensures more[i].attempt in Next(s, e).attempts {
      if i < |visits| {
        assert VisitOk(s, visits[i], b);
      }
      L.AttemptsStay(s, e, more[i].attempt);
    }
  }

  lemma StepKeeps(s: State, e: Event, posts: seq<Entry>, visits: seq<Visit>, b: nat)
    requires Inv(s, posts, visits, b) && Enabled(s, e) && Undisturbed(s, e, b) && KeepsLease(Next(s, e), b)
    requires Distinct(Stamps(Next(s, e).creations, VisitsAfter(s, e, visits, b)))
    ensures Inv(Next(s, e), PostsAfter(s, e, posts, b), VisitsAfter(s, e, visits, b), b)
  {
    hide A.Inv, Next, Enabled, Agrees, KeepsLease, Table, Stamps, Fated;
    A.StepKeeps(s, e);
    if Aside(s, e, b) {
      AsideLogs(s, e, posts, visits, b);
      AsideTable(s, e, posts, visits, b);
      TableHasBinding(Next(s, e), visits, b);
      AsideAgrees(s, e, posts, visits, b);
    } else if e.Await? {
      assert e == Await(e.attempt, Accept);
      AwaitAgrees(s, posts, visits, e.attempt, b);
      AwaitTable(s, posts, visits, e.attempt, b);
    } else {
      ClaimTable(s, posts, visits, e.attempt, b);
      ClaimAgrees(s, posts, visits, e.attempt, b);
    }
  }

  // ---------------------------------------------------------------------------------------------
  // Runs

  /** Posts are stamped with the event of their await. */
  lemma {:induction false} PostsAreAwaits(events: seq<Event>)
    requires Possible(events)
    ensures var s := After(events);
      forall i | 0 <= i < |s.creations| ::
        && s.creations[i].post < |events|
        && events[s.creations[i].post].Await? && events[s.creations[i].post].attempt == s.creations[i].attempt
    decreases |events|
  {
    hide Next, Enabled, Effect, Possible, After;
    if events == [] {
      L.NothingYet();
    } else {
      var n := |events| - 1;
      LastStep(events);
      PostsAreAwaits(events[..n]);
      L.AttemptsAreAcquired(events[..n]);
      var s := After(events[..n]);
      CreationStep(s, events[n]);
      forall i | 0 <= i < |After(events).creations|
        ensures var c := After(events).creations[i];
          c.post < |events| && events[c.post].Await? && events[c.post].attempt == c.attempt
      {
        if i < |s.creations| {
          assert After(events).creations[i] == s.creations[i];
        }
      }
    }
  }

  lemma CreationStep(s: State, e: Event)
    requires Enabled(s, e)
    ensures Next(s, e).creations == s.creations ||
            (&& |Next(s, e).creations| == |s.creations| + 1 && s.creations <= Next(s, e).creations && e.Await?
             && Next(s, e).creations[|s.creations|].post == s.now
             && Next(s, e).creations[|s.creations|].attempt == e.attempt)
  {
    hide AwaitStep, StoreFailedStep, Start, StageAfter, Resume, CallOf;
    if e.Await? {
      A.AwaitFrame(s, e.attempt, e.reply);
    } else if e.StoreFailed? {
      StoreCreatesNothing(s, e.attempt, e.landed);
    }
  }

  /** Every visit has a stamp of its own: posts and attempts are numbered by different events. */
  lemma StampsAreDistinct(events: seq<Event>, visits: seq<Visit>)
    requires Possible(events)
    requires forall i | 0 <= i < |visits| :: visits[i].attempt in After(events).attempts
    requires forall i, j | 0 <= i < j < |visits| :: visits[i].attempt < visits[j].attempt
    ensures Distinct(Stamps(After(events).creations, visits))
  {
    hide Possible, After, PostOf;
    L.AttemptsAreAcquired(events);
    PostsAreAwaits(events);
    var stamps := Stamps(After(events).creations, visits);
    forall i, j | 0 <= i < j < |stamps| ensures stamps[i] != stamps[j] {
      StampIsOwn(events, visits[i].attempt);
      StampIsOwn(events, visits[j].attempt);
    }
  }

  lemma StampIsOwn(events: seq<Event>, a: nat)
    requires Possible(events) && a in After(events).attempts
    ensures var stamp := StampOf(After(events).creations, a);
      stamp < |events| && (if events[stamp].Await? then events[stamp].attempt == a else stamp == a)
  {
    hide Possible, After, PostOf;
    L.AttemptsAreAcquired(events);
    PostsAreAwaits(events);
    if PostOf(After(events).creations, a).Some? {
      var i := PostFound(After(events).creations, a);
    }
  }

  /** A conversation not yet bound has no posts and no visits. */
  lemma {:induction false} NothingBeforeBinding(events: seq<Event>, b: nat)
    requires Possible(events) && b !in After(events).bindings
    ensures Posts(events, b) == [] && Visits(events, b) == []
    decreases |events|
  {
    hide Next, Enabled, Effect, Possible, After, Changed;
    if events != [] {
      var n := |events| - 1;
      LastStep(events);
      UnboundStays(After(events[..n]), events[n], b);
      NothingBeforeBinding(events[..n], b);
    }
  }

  lemma UnboundStays(s: State, e: Event, b: nat)
    requires Enabled(s, e) && b !in Next(s, e).bindings
    ensures b !in s.bindings
    ensures e.Await? || e.Claim? ==> BindingOf(s, e.attempt) != b
  {
    hide AwaitStep, StoreFailedStep, Start, StageAfter, Resume, CallOf;
    if e.Await? {
      A.AwaitFrame(s, e.attempt, e.reply);
    } else if e.StoreFailed? {
      A.StoreFrame(s, e.attempt, CallOf(RowOf(s, e.attempt).msg, s.attempts[e.attempt].stage.phase));
      StoreFailedKeys(s, e.attempt, e.landed);
    }
  }

  lemma StoreFailedKeys(s: State, a: nat, landed: bool)
    requires Enabled(s, StoreFailed(a, landed))
    ensures StoreFailedStep(s, a, landed).bindings.Keys == s.bindings.Keys
  {
    A.StoreFrame(s, a, CallOf(RowOf(s, a).msg, s.attempts[a].stage.phase));
  }

  lemma BindBegins(s: State, e: Event, b: nat)
    requires A.Inv(s) && Enabled(s, e) && b !in s.bindings && b in Next(s, e).bindings
    ensures PostsAfter(s, e, [], b) == [] && VisitsAfter(s, e, [], b) == []
    ensures Inv(Next(s, e), [], [], b)
  {
    A.StepKeeps(s, e);
    hide A.Owned, A.Logged;
    OnlyBindBinds(s, e, b);
    var s' := Next(s, e);
    assert forall a :: !Of(s', a, b);
    assert Replay(s'.bindings[b].place, Messages([])) == EMPTY;
  }

  lemma OnlyBindBinds(s: State, e: Event, b: nat)
    requires Enabled(s, e) && b !in s.bindings && b in Next(s, e).bindings
    ensures e.Bind? && e.binding == b
  {
    hide AwaitStep, StoreFailedStep, Start, StageAfter, Resume, CallOf;
    if e.Await? {
      A.AwaitFrame(s, e.attempt, e.reply);
    } else if e.StoreFailed? {
      StoreFailedKeys(s, e.attempt, e.landed);
    }
  }

  lemma {:induction false} RunKeeps(events: seq<Event>, b: nat)
    requires Possible(events) && Calm(events, b) && b in After(events).bindings
    ensures Inv(After(events), Posts(events, b), Visits(events, b), b)
    decreases |events|
  {
    hide Next, Enabled, Effect, Inv, A.Inv, Undisturbed, KeepsLease, PostsAfter, VisitsAfter;
    if events == [] {
      L.NothingYet();
      return;
    }
    var n := |events| - 1;
    var s := After(events[..n]);
    A.RunKeeps(events[..n]);
    if b in s.bindings {
      RunKeeps(events[..n], b);
      NextKeeps(events, b);
    } else {
      NothingBeforeBinding(events[..n], b);
      BindBegins(s, events[n], b);
    }
  }

  lemma NextKeeps(events: seq<Event>, b: nat)
    requires Possible(events) && Calm(events, b) && events != []
    requires var n := |events| - 1; Inv(After(events[..n]), Posts(events[..n], b), Visits(events[..n], b), b)
    ensures Inv(After(events), Posts(events, b), Visits(events, b), b)
  {
    hide Next, Enabled, Effect, Inv, A.Inv, Undisturbed, KeepsLease, PostsAfter, VisitsAfter, Stamps, Distinct;
    var n := |events| - 1;
    var s, e, posts, visits := After(events[..n]), events[n], Posts(events[..n], b), Visits(events[..n], b);
    VisitsIncrease(s, e, posts, visits, b);
    StampsAreDistinct(events, VisitsAfter(s, e, visits, b));
    StepKeeps(s, e, posts, visits, b);
  }

  // ---------------------------------------------------------------------------------------------
  // Results

  /**
   While no projection of it is suspended, an undisturbed conversation is the rendering of its messages in
   the order in which their attempts took the lease: the thread in Slack post by post, the working post,
   the status post and its version, each post under the timestamp Slack gave the message that created it.
   */
  lemma ProjectionIsSerial(events: seq<Event>, b: nat)
    requires Possible(events) && Calm(events, b) && b in After(events).bindings
    requires forall a | Of(After(events), a, b) :: !After(events).attempts[a].stage.Applying?
    ensures var s, visits := After(events), Visits(events, b);
      var msgs, stamps := Messages(visits), Stamps(s.creations, visits);
      var t := Replay(s.bindings[b].place, msgs);
      && Distinct(stamps) && PostsBelow(t, |stamps|)
      && Posts(events, b) == Named(R.Render(s.bindings[b].place, msgs), stamps)
      && s.bindings[b].working == NamePost(t.working, stamps)
      && s.bindings[b].statusPost == NamePost(t.status, stamps) && s.bindings[b].statusVersion == t.version
  {
    hide Next, Enabled, Effect, Possible, After, Table, A.Inv, KeepsLease, Stamps, Distinct, Replay, Named, Calm, Posts, Visits;
    RunKeeps(events, b);
    var s, visits := After(events), Visits(events, b);
    if Projecting(s, visits) {
      VisitsAreOf(s, visits, b, |visits| - 1);
      assert false;
    }
    VisitOrder(events, b);
    StampsAreDistinct(events, visits);
    ReplayIsSound(s.bindings[b].place, Messages(visits));
    R.ThreadIsRendering(s.bindings[b].place, Messages(visits));
  }

  /** Every visit is that of an attempt that acquired its lease in this order. */
  lemma VisitOrder(events: seq<Event>, b: nat)
    requires Possible(events) && Calm(events, b) && b in After(events).bindings
    ensures var s, visits := After(events), Visits(events, b);
      && (forall i | 0 <= i < |visits| ::
            && visits[i].attempt in s.attempts && visits[i].attempt < |events|
            && events[visits[i].attempt] == Acquire(visits[i].row)
            && visits[i].row in s.rows && s.rows[visits[i].row].msg == visits[i].msg && s.rows[visits[i].row].binding == b)
      && (forall i, j | 0 <= i < j < |visits| :: visits[i].attempt < visits[j].attempt)
  {
    hide Next, Enabled, Effect, Possible, After, A.Inv, KeepsLease, Agrees, Calm, Posts, Visits, Fresh, Honest, Complete;
    RunKeeps(events, b);
    L.AttemptsAreAcquired(events);
    var s, visits := After(events), Visits(events, b);
    forall i | 0 <= i < |visits|
      ensures visits[i].attempt in s.attempts && s.attempts[visits[i].attempt].row == visits[i].row
      ensures visits[i].row in s.rows && s.rows[visits[i].row].msg == visits[i].msg && s.rows[visits[i].row].binding == b
    {
      assert VisitOk(s, visits[i], b);
    }
  }

  /** Every delivery of the conversation that was accepted or skipped is one of the visits, from its lease span. */
  lemma DeliveredIsVisited(events: seq<Event>, b: nat, r: nat)
    requires Possible(events) && Calm(events, b) && b in After(events).bindings
    requires r in After(events).rows && After(events).rows[r].binding == b && L.Delivered(After(events).rows[r].state)
    ensures r in After(events).renewals
    ensures exists i | 0 <= i < |Visits(events, b)| ::
              Visits(events, b)[i] == Visit(After(events).renewals[r].from, r, After(events).rows[r].msg)
  {
    hide Next, Enabled, Effect, Possible, After, A.Inv, KeepsLease, Agrees, Calm, Posts, Visits, Fresh, Honest;
    RunKeeps(events, b);
    L.RunKeeps(events);
    var s, visits := After(events), Visits(events, b);
    var a := s.renewals[r].from;
    assert Of(s, a, b) && s.attempts[a].claimed;
    assert Visited(visits, a);
    var i :| 0 <= i < |visits| && visits[i].attempt == a;
    assert VisitOk(s, visits[i], b);
    assert visits[i] == Visit(a, r, s.rows[r].msg);
  }

  /** Every visit that is over has the outcome its message is due: nothing is rejected, retried or left in doubt. */
  lemma VisitsHaveOutcomes(events: seq<Event>, b: nat, i: nat)
    requires Possible(events) && Calm(events, b) && b in After(events).bindings && i < |Visits(events, b)|
    requires var v := Visits(events, b)[i];
      v.attempt in After(events).attempts && Over(After(events).attempts[v.attempt].stage)
    ensures var s, v := After(events), Visits(events, b)[i]; v.row in s.rows && Due(v.msg, s.rows[v.row].state)
  {
    hide Next, Enabled, Effect, Possible, After, A.Inv, KeepsLease, Agrees, Calm, Posts, Visits, Fresh, Honest, Complete;
    RunKeeps(events, b);
    assert VisitOk(After(events), Visits(events, b)[i], b);
  }
}
