/**
 The surface delivery protocol as a transition system: any number of workers take deliveries from the
 stream or from the outbox scan, lease the binding, claim the row, project the message and record an
 outcome, while rows are swept, disconnected and reassigned around them. Every event is one await of
 apps/surface-worker/src/fanout.ts or one statement another process runs against the same tables.
 */
module DeliveryProtocol {
  import opened Prelude
  import opened Projection
  import opened Deliveries
  import opened LeaseStore

  datatype Row = Row(binding: nat, msg: Message, generation: nat, state: Delivery)

  datatype Binding = Binding(
    place: Place, statusPost: Option<nat>, statusVersion: int, generation: nat, working: Option<nat>)

  /** Where an attempt is suspended between taking the lease and giving it back. */
  datatype Stage =
    | Leased
    | Applying(phase: Phase)
    | Renewing(result: Result)
    | Finishing(outcome: Outcome)
    | Retrying
    | Releasing
    | Gone

  /** One pass over one target. `claimed` holds from the won claim until the row is handed back. */
  datatype Attempt = Attempt(row: nat, claimed: bool, lapsed: bool, stage: Stage)

  /** A `chat.postMessage` Slack accepted. `misread`: it answered ok without a timestamp. */
  datatype Creation = Creation(attempt: nat, row: nat, binding: nat, lifecycle: bool, post: nat, misread: bool)

  /** From the event that took the lease to the event that renewed it for the last time. */
  datatype Span = Span(from: nat, to: nat)

  /**
   The tables, the lease store, the attempts under way and the history. `now` numbers the events: it
   serves as a fresh lease token, which also names the attempt, and as a fresh Slack timestamp. `clock`
   is the lease store's clock. `renewals` has the lease span of every row that reached its final renewal,
   `lateClaims` the attempts that claimed a lifecycle row after they had lost their lease.
   */
  datatype State = State(
    now: nat, clock: nat,
    rows: map<nat, Row>, bindings: map<nat, Binding>, leases: map<nat, Lease>, attempts: map<nat, Attempt>,
    creations: seq<Creation>, renewals: map<nat, Span>, lateClaims: set<nat>)

  /** How Slack answers one request. An ambiguous failure may hide an accepted request. */
  datatype SlackReply = Accept | AcceptWithoutStamp | Reject | RateLimit | Ambiguous(landed: bool)

  datatype Event =
    | Bind(binding: nat, place: Place)
    | Enqueue(row: nat, target: nat, msg: Message)
    | BlockQueued(row: nat)
    | Interrupt(row: nat)
    | Reassign(binding: nat)
    | Pass(ms: nat)
    | Acquire(row: nat)
    | Claim(attempt: nat, won: bool)
    | ClaimFailed(attempt: nat, landed: bool)
    | Await(attempt: nat, reply: SlackReply)
    | StoreFailed(attempt: nat, landed: bool)
    | Heartbeat(attempt: nat, failed: bool)
    | Renew(attempt: nat, failed: bool)
    | Finish(attempt: nat)
    | FinishFailed(attempt: nat, landed: bool)
    | Reschedule(attempt: nat, landed: bool)
    | Release(attempt: nat)
    | Crash(attempt: nat)

  /** The events of one worker's pass over one target, once it has the lease. */
  predicate ByAttempt(e: Event) {
    e.Claim? || e.ClaimFailed? || e.Await? || e.StoreFailed? || e.Heartbeat? || e.Renew? || e.Finish? || e.FinishFailed?
    || e.Reschedule? || e.Release? || e.Crash?
  }

  const LEASE_TTL_MS := 60_000

  ghost const INITIAL: State := State(0, 0, map[], map[], map[], map[], [], map[], {})

  // ---------------------------------------------------------------------------------------------
  // Ports

  ghost predicate Holds(s: State, a: nat, b: nat) {
    HeldBy(s.leases, b, a, s.clock)
  }

  /** Another lifecycle row of the binding may have created its status post. */
  ghost predicate AmbiguousCreation(s: State, row: nat)
    requires row in s.rows
  {
    exists r | r in s.rows ::
      r != row && s.rows[r].binding == s.rows[row].binding && s.rows[r].msg.kind.Lifecycle? && InFlight(s.rows[r].state)
  }

  ghost predicate Present(s: State, a: nat) {
    a in s.attempts && s.attempts[a].row in s.rows && s.rows[s.attempts[a].row].binding in s.bindings
  }

  ghost function RowOf(s: State, a: nat): Row
    requires Present(s, a)
  {
    s.rows[s.attempts[a].row]
  }

  ghost function BindingOf(s: State, a: nat): nat
    requires Present(s, a)
  {
    RowOf(s, a).binding
  }

  ghost function Move(s: State, a: nat, stage: Stage): State
    requires a in s.attempts
  {
    s.(attempts := s.attempts[a := s.attempts[a].(stage := stage)])
  }

  ghost function SetRow(s: State, r: nat, state: Delivery): State
    requires r in s.rows
  {
    s.(rows := s.rows[r := s.rows[r].(state := state)])
  }

  ghost function Create(s: State, a: nat, misread: bool): State
    requires Present(s, a)
  {
    s.(creations := s.creations +
      [Creation(a, s.attempts[a].row, BindingOf(s, a), RowOf(s, a).msg.kind.Lifecycle?, s.now, misread)])
  }

  ghost predicate Advances(b: Binding, row: Row, version: int) {
    b.generation == row.generation && (b.statusPost.None? || b.statusVersion < version)
  }

  /** What a Slack call leaves behind and answers. Update and delete do not need the timestamp. */
  ghost function ServeSlack(s: State, a: nat, call: Call, reply: SlackReply): (State, Answer)
    requires Present(s, a) && IsSlackCall(call)
  {
    match reply
    case Accept => if call.Post? then (Create(s, a, false), Stamp(s.now)) else (s, Done)
    case AcceptWithoutStamp =>
      if call.Post? then (Create(s, a, true), SlackError(Refused)) else (s, Done)
    case Reject => (s, SlackError(Refused))
    case RateLimit => (s, SlackError(Retryable))
    case Ambiguous(landed) => (if landed && call.Post? then Create(s, a, false) else s, SlackError(Unclear))
  }

  /** What a store call does to the tables and answers when it does not fail. */
  ghost function ServeStore(s: State, a: nat, call: Call): (State, Answer)
    requires Present(s, a) && !IsSlackCall(call)
  {
    var b := BindingOf(s, a);
    var binding := s.bindings[b];
    match call
    case GetStatusPost => (s, StatusPost(binding.statusPost, binding.statusVersion))
    case HasAmbiguousCreation => (s, Flag(AmbiguousCreation(s, s.attempts[a].row)))
    case GetWorkingPost => (s, WorkingPost(binding.working))
    case SetWorkingPost(post) => (s.(bindings := s.bindings[b := binding.(working := Some(post))]), Done)
    case ClearWorkingPost => (s.(bindings := s.bindings[b := binding.(working := None)]), Done)
    case AdvanceStatusPost(post, version) =>
      if Advances(binding, RowOf(s, a), version) then
        (s.(bindings := s.bindings[b := binding.(statusPost := Some(post), statusVersion := version)]), Flag(true))
      else (s, Flag(false))
    case _ => (s, StoreError)
  }

  /** The catch clause of the fan-out: what an attempt does next once the projection stops. */
  function StageAfter(p: Phase): Stage {
    match p
    case Returned(result) => Renewing(result)
    case Threw(ProjectionBlocked) => Finishing(Blocked)
    case Threw(SlackFailed(Retryable)) => Retrying
    case Threw(SlackFailed(Refused)) => Finishing(Rejected)
    case Threw(_) => Finishing(Uncertain)
    case _ => Applying(p)
  }

  // ---------------------------------------------------------------------------------------------
  // Events

  ghost predicate Enabled(s: State, e: Event) {
    match e
    case Bind(b, _) => b !in s.bindings
    case Enqueue(r, b, _) => r !in s.rows && b in s.bindings
    case BlockQueued(r) => r in s.rows && s.rows[r].state.Queued?
    case Interrupt(r) => r in s.rows && s.rows[r].state.Sending?
    case Reassign(b) => b in s.bindings
    case Pass(_) => true
    case Acquire(r) =>
      r in s.rows && s.now !in s.attempts &&
      IsFree(s.leases, s.rows[r].binding, s.clock)
    case Claim(a, won) => Present(s, a) && s.attempts[a].stage.Leased? && (won ==> RowOf(s, a).state.Queued?)
    case ClaimFailed(a, landed) => Present(s, a) && s.attempts[a].stage.Leased? && (landed ==> RowOf(s, a).state.Queued?)
    case Await(a, _) => Present(s, a) && s.attempts[a].stage.Applying? && Fits(RowOf(s, a).msg, s.attempts[a].stage.phase)
    case StoreFailed(a, _) =>
      Present(s, a) && s.attempts[a].stage.Applying? && Fits(RowOf(s, a).msg, s.attempts[a].stage.phase) &&
      !IsSlackCall(CallOf(RowOf(s, a).msg, s.attempts[a].stage.phase))
    case Heartbeat(a, _) => Present(s, a) && !s.attempts[a].stage.Gone?
    case Renew(a, _) => Present(s, a) && s.attempts[a].stage.Renewing?
    case Finish(a) => Present(s, a) && s.attempts[a].stage.Finishing?
    case FinishFailed(a, _) => Present(s, a) && s.attempts[a].stage.Finishing?
    case Reschedule(a, _) => Present(s, a) && s.attempts[a].stage.Retrying?
    case Release(a) => Present(s, a) && s.attempts[a].stage.Releasing?
    case Crash(a) => Present(s, a)
  }

  /** CAS `sending -> outcome`; a row someone else moved on is left alone. */
  ghost function Complete(s: State, a: nat): State
    requires Present(s, a) && s.attempts[a].stage.Finishing?
  {
    if RowOf(s, a).state.Sending? then SetRow(s, s.attempts[a].row, s.attempts[a].stage.outcome) else s
  }

  ghost function AcquireStep(s: State, r: nat): State
    requires r in s.rows
  {
    s.(leases := Granted(s.leases, s.rows[r].binding, s.now, s.clock, LEASE_TTL_MS),
       attempts := s.attempts[s.now := Attempt(r, false, false, Leased)])
  }

  ghost function ClaimStep(s: State, a: nat, won: bool): State
    requires Present(s, a)
  {
    if !won then Move(s, a, Releasing)
    else
      var b := BindingOf(s, a);
      var stage := StageAfter(Start(s.bindings[b].place, RowOf(s, a).msg));
      SetRow(s, s.attempts[a].row, Sending).(
        attempts := s.attempts[a := s.attempts[a].(claimed := true, stage := stage)],
        lateClaims := if Holds(s, a, b) || !RowOf(s, a).msg.kind.Lifecycle? then s.lateClaims else s.lateClaims + {a})
  }

  ghost function ClaimFailedStep(s: State, a: nat, landed: bool): State
    requires Present(s, a)
  {
    var s' := s.(attempts := s.attempts[a := s.attempts[a].(claimed := s.attempts[a].claimed || landed, stage := Finishing(Uncertain))]);
    if landed then SetRow(s', s.attempts[a].row, Sending) else s'
  }

  ghost function AwaitStep(s: State, a: nat, reply: SlackReply): State
    requires Enabled(s, Await(a, reply))
  {
    var m, p := RowOf(s, a).msg, s.attempts[a].stage.phase;
    var call := CallOf(m, p);
    var (s', answer) := if IsSlackCall(call) then ServeSlack(s, a, call, reply) else ServeStore(s, a, call);
    Move(s', a, StageAfter(Resume(m, p, answer)))
  }

  ghost function StoreFailedStep(s: State, a: nat, landed: bool): State
    requires Enabled(s, StoreFailed(a, landed))
  {
    var call := CallOf(RowOf(s, a).msg, s.attempts[a].stage.phase);
    Move(if landed then ServeStore(s, a, call).0 else s, a, Finishing(Uncertain))
  }

  ghost function Extend(s: State, a: nat): State
    requires Present(s, a)
  {
    s.(leases := Renewed(s.leases, BindingOf(s, a), a, s.clock, LEASE_TTL_MS))
  }

  ghost function HeartbeatStep(s: State, a: nat, failed: bool): State
    requires Present(s, a)
  {
    if !failed && Holds(s, a, BindingOf(s, a)) then Extend(s, a)
    else s.(attempts := s.attempts[a := s.attempts[a].(lapsed := true)])
  }

  ghost function RenewStep(s: State, a: nat, failed: bool): State
    requires Present(s, a) && s.attempts[a].stage.Renewing?
  {
    var attempt := s.attempts[a];
    if failed || attempt.lapsed || !Holds(s, a, BindingOf(s, a)) then Move(s, a, Finishing(Uncertain))
    else
      Move(Extend(s, a), a, Finishing(if attempt.stage.result.skipped then Skipped else Accepted))
        .(renewals := s.renewals[attempt.row := Span(a, s.now)])
  }

  ghost function FinishFailedStep(s: State, a: nat, landed: bool): State
    requires Present(s, a) && s.attempts[a].stage.Finishing?
  {
    var outcome := s.attempts[a].stage.outcome;
    Move(if landed then Complete(s, a) else s, a,
         if outcome.Accepted? || outcome.Skipped? then Finishing(Uncertain) else Releasing)
  }

  ghost function RescheduleStep(s: State, a: nat, landed: bool): State
    requires Present(s, a)
  {
    if landed && RowOf(s, a).state.Sending? then
      SetRow(s, s.attempts[a].row, Queued).(
        attempts := s.attempts[a := s.attempts[a].(claimed := false, stage := Releasing)])
    else Move(s, a, Releasing)
  }

  ghost function ReleaseStep(s: State, a: nat): State
    requires Present(s, a)
  {
    var b := BindingOf(s, a);
    Move(s, a, Gone).(leases := Released(s.leases, b, a, s.clock))
  }

  ghost function Effect(s: State, e: Event): State
    requires Enabled(s, e)
  {
    match e
    case Bind(b, place) => s.(bindings := s.bindings[b := Binding(place, None, 0, 0, None)])
    case Enqueue(r, b, m) => s.(rows := s.rows[r := Row(b, m, s.bindings[b].generation, Queued)])
    case BlockQueued(r) => SetRow(s, r, Blocked)
    case Interrupt(r) => SetRow(s, r, Uncertain)
    case Reassign(b) =>
      var binding := s.bindings[b];
      s.(bindings := s.bindings[b := binding.(statusVersion := -1, generation := binding.generation + 1)])
    case Pass(ms) => s.(clock := s.clock + ms)
    case Acquire(r) => AcquireStep(s, r)
    case Claim(a, won) => ClaimStep(s, a, won)
    case ClaimFailed(a, landed) => ClaimFailedStep(s, a, landed)
    case Await(a, reply) => AwaitStep(s, a, reply)
    case StoreFailed(a, landed) => StoreFailedStep(s, a, landed)
    case Heartbeat(a, failed) => HeartbeatStep(s, a, failed)
    case Renew(a, failed) => RenewStep(s, a, failed)
    case Finish(a) => Move(Complete(s, a), a, Releasing)
    case FinishFailed(a, landed) => FinishFailedStep(s, a, landed)
    case Reschedule(a, landed) => RescheduleStep(s, a, landed)
    case Release(a) => ReleaseStep(s, a)
    case Crash(a) => Move(s, a, Gone)
  }

  ghost function Next(s: State, e: Event): State
    requires Enabled(s, e)
  {
    Effect(s, e).(now := s.now + 1)
  }

  /** `events` can happen one after the other in a new installation. */
  ghost predicate Possible(events: seq<Event>)
    decreases |events|, 0
  {
    events == [] ||
    (var n := |events| - 1; Possible(events[..n]) && Enabled(After(events[..n]), events[n]))
  }

  /** The state `events` lead to. */
  ghost function After(events: seq<Event>): State
    requires Possible(events)
    decreases |events|, 1
  {
    if events == [] then INITIAL else var n := |events| - 1; Next(After(events[..n]), events[n])
  }

  /** A run is a shorter run and its last event. */
  lemma LastStep(events: seq<Event>)
    requires Possible(events) && events != []
    ensures var n := |events| - 1;
            Possible(events[..n]) && Enabled(After(events[..n]), events[n]) && After(events) == Next(After(events[..n]), events[n])
  {
  }
}
