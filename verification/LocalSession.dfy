/**
 The browser's local session: apps/dashboard/src/local-session.ts and local-development-session.ts.
 Sign-ins and renewals are cut at their awaits, so responses, aborts and session changes may come
 in any order.
 */
module LocalSession {
  import opened Prelude

  datatype Session = Session(token: string, email: string, expires: nat)

  datatype Kind = SignIn | Renewal

  datatype Result = Accepted | Declined | Threw

  /** `Settled`: the request's outcome is known, but a renewal's `finally` has still to run. */
  datatype Stage = Probing | Requesting | Settled(result: Result) | Closed(result: Result)

  datatype Request = Request(kind: Kind, revision: nat, stage: Stage)

  /** Who called `setLocalSession`: other code of the page, or the response of a request. */
  datatype Change = Outside(chosen: Option<Session>) | Response(request: nat, session: Session)

  datatype Pending = Pending(revision: nat, request: nat)

  /** `changes` is the history of `setLocalSession`; the rest are the module variables. */
  datatype State = State(
    revision: nat, cache: Option<Session>, pending: Option<Pending>, requests: seq<Request>, changes: seq<Change>)

  /** What the guarded server answered; an invalid or expired session is a failure. */
  datatype Reply = Matched(session: Session) | NoMatch | Failed

  datatype Event =
    | SetSession(session: Option<Session>)
    | StartSignIn
    | Renew
    | Probed(request: nat, enabled: Option<bool>)
    | Replied(request: nat, reply: Reply)
    | Abort(request: nat)
    | Finally(request: nat)

  ghost predicate Enabled(s: State, e: Event) {
    match e
    case Probed(r, _) => r < |s.requests| && s.requests[r].stage.Probing?
    case Replied(r, _) => r < |s.requests| && s.requests[r].stage.Requesting?
    case Abort(r) =>
      r < |s.requests| && s.requests[r].kind.SignIn? && (s.requests[r].stage.Probing? || s.requests[r].stage.Requesting?)
    case Finally(r) => r < |s.requests| && s.requests[r].kind.Renewal? && s.requests[r].stage.Settled?
    case _ => true
  }

  function Move(s: State, r: nat, stage: Stage): State
    requires r < |s.requests|
  {
    s.(requests := s.requests[r := s.requests[r].(stage := stage)])
  }

  function Store(s: State, change: Change): State {
    State(s.revision + 1, if change.Outside? then change.chosen else Some(change.session),
          s.pending, s.requests, s.changes + [change])
  }

  /** `renewLocalDevelopmentSession` up to its first await: nothing, a running request, or a new one. */
  function RenewStep(s: State): State {
    if s.cache.None? || (s.pending.Some? && s.pending.value.revision == s.revision) then s
    else
      s.(requests := s.requests + [Request(Renewal, s.revision, Probing)],
         pending := Some(Pending(s.revision, |s.requests|)))
  }

  /** `acceptSession`, and the checks of either caller around it. */
  function ReplyStep(s: State, r: nat, reply: Reply): State
    requires r < |s.requests|
  {
    var request := s.requests[r];
    if reply.Failed? then Move(s, r, Settled(Threw))
    else if request.kind.SignIn? && s.revision != request.revision then Move(s, r, Settled(Threw))
    else if reply.NoMatch? then Move(s, r, Settled(if request.kind.SignIn? then Declined else Threw))
    else if s.revision != request.revision then Move(s, r, Settled(Declined))
    else Store(Move(s, r, Settled(Accepted)), Response(r, reply.session))
  }

  ghost function Next(s: State, e: Event): State
    requires Enabled(s, e)
  {
    match e
    case SetSession(session) => Store(s, Outside(session))
    case StartSignIn => s.(requests := s.requests + [Request(SignIn, s.revision, Probing)])
    case Renew => RenewStep(s)
    case Probed(r, enabled) =>
      Move(s, r, if enabled == Some(true) then Requesting else Settled(if enabled.None? then Threw else Declined))
    case Replied(r, reply) => ReplyStep(s, r, reply)
    case Abort(r) => Move(s, r, Settled(Threw))
    case Finally(r) =>
      var s' := Move(s, r, Closed(s.requests[r].stage.result));
      if s.pending.Some? && s.pending.value.request == r then s'.(pending := None) else s'
  }

  ghost predicate Possible(initial: Option<Session>, events: seq<Event>)
    decreases |events|, 0
  {
    events == [] ||
    (var n := |events| - 1; Possible(initial, events[..n]) && Enabled(After(initial, events[..n]), events[n]))
  }

  /** From a freshly loaded page whose storage holds `initial`. */
  ghost function After(initial: Option<Session>, events: seq<Event>): State
    requires Possible(initial, events)
    decreases |events|, 1
  {
    if events == [] then State(0, initial, None, [], [])
    else var n := |events| - 1; Next(After(initial, events[..n]), events[n])
  }

  // ---------------------------------------------------------------------------------------------
  // The invariant

  function Outcome(request: Request): Option<Result> {
    match request.stage
    case Settled(result) => Some(result)
    case Closed(result) => Some(result)
    case _ => None
  }

  /** Change `i` is a response whose request was made when there had been `i` changes. */
  ghost predicate StoredAt(s: State, i: nat)
    requires i < |s.changes|
  {
    s.changes[i].Response? ==>
      var r := s.changes[i].request;
      r < |s.requests| && s.requests[r].revision == i && Outcome(s.requests[r]) == Some(Accepted)
  }

  /** An accepted request has its change. */
  ghost predicate Recorded(s: State, r: nat)
    requires r < |s.requests|
  {
    Outcome(s.requests[r]) == Some(Accepted) ==>
      var i := s.requests[r].revision;
      i < |s.changes| && s.changes[i].Response? && s.changes[i].request == r
  }

  ghost predicate History(s: State) {
    && s.revision == |s.changes|
    && (forall i: nat | i < |s.changes| :: StoredAt(s, i))
    && (forall r: nat | r < |s.requests| :: Recorded(s, r))
  }

  /** A renewal whose `finally` has not run. */
  ghost predicate Open(s: State, r: nat) {
    r < |s.requests| && s.requests[r].kind.Renewal? && !s.requests[r].stage.Closed?
  }

  ghost predicate PendingIsOpen(s: State) {
    s.pending.Some? ==>
      Open(s, s.pending.value.request) && s.requests[s.pending.value.request].revision == s.pending.value.revision
  }

  ghost predicate CurrentIsPending(s: State) {
    forall r: nat | Open(s, r) && s.requests[r].revision == s.revision ::
      s.pending.Some? && s.pending.value.request == r
  }

  ghost predicate OneOpenEach(s: State) {
    forall q: nat, r: nat | Open(s, q) && Open(s, r) && q != r :: s.requests[q].revision != s.requests[r].revision
  }

  ghost predicate SingleFlight(s: State) {
    && PendingIsOpen(s) && CurrentIsPending(s) && OneOpenEach(s)
    && (forall r: nat | r < |s.requests| :: s.requests[r].revision <= s.revision)
  }

  lemma MoveKeeps(s: State, r: nat, stage: Stage)
    requires r < |s.requests| && History(s) && SingleFlight(s)
    requires Outcome(s.requests[r].(stage := stage)) == Some(Accepted) <==> Outcome(s.requests[r]) == Some(Accepted)
    requires s.requests[r].kind.SignIn? || !stage.Closed?
    requires !s.requests[r].stage.Closed?
    ensures History(Move(s, r, stage)) && SingleFlight(Move(s, r, stage))
  {
    var t := Move(s, r, stage);
    MoveKeepsHistory(s, r, stage);
    forall q: nat ensures Open(t, q) <==> Open(s, q) {
    }
  }

  lemma MoveKeepsHistory(s: State, r: nat, stage: Stage)
    requires r < |s.requests| && History(s)
    requires Outcome(s.requests[r].(stage := stage)) == Some(Accepted) <==> Outcome(s.requests[r]) == Some(Accepted)
    ensures History(Move(s, r, stage))
  {
    var t := Move(s, r, stage);
    forall i: nat | i < |t.changes| ensures StoredAt(t, i) {
      assert StoredAt(s, i);
    }
    forall q: nat | q < |t.requests| ensures Recorded(t, q) {
      assert Recorded(s, q);
    }
  }

  lemma StoreKeepsSingleFlight(s: State, change: Change)
    requires SingleFlight(s)
    ensures SingleFlight(Store(s, change))
  {
    var t := Store(s, change);
    forall q: nat ensures Open(t, q) <==> Open(s, q) {
    }
  }

  lemma OutsideKeeps(s: State, session: Option<Session>)
    requires History(s) && SingleFlight(s)
    ensures History(Store(s, Outside(session))) && SingleFlight(Store(s, Outside(session)))
  {
    var t := Store(s, Outside(session));
    StoreKeepsSingleFlight(s, Outside(session));
    forall i: nat | i < |t.changes| ensures StoredAt(t, i) {
      assert i < |s.changes| ==> StoredAt(s, i);
    }
    forall q: nat | q < |t.requests| ensures Recorded(t, q) {
      assert Recorded(s, q);
    }
  }

  lemma AcceptKeeps(s: State, r: nat, session: Session)
    requires r < |s.requests| && s.requests[r].stage.Requesting? && s.requests[r].revision == s.revision
    requires History(s) && SingleFlight(s)
    ensures var t := Store(Move(s, r, Settled(Accepted)), Response(r, session)); History(t) && SingleFlight(t)
  {
    var m := Move(s, r, Settled(Accepted));
    var t := Store(m, Response(r, session));
    forall q: nat ensures Open(m, q) <==> Open(s, q) {
    }
    StoreKeepsSingleFlight(m, Response(r, session));
    forall i: nat | i < |t.changes| ensures StoredAt(t, i) {
      assert i < |s.changes| ==> StoredAt(s, i);
    }
    forall q: nat | q < |t.requests| ensures Recorded(t, q) {
      assert Recorded(s, q);
    }
  }

  lemma AddKeepsHistory(s: State, kind: Kind, pending: Option<Pending>)
    requires History(s)
    ensures History(s.(requests := s.requests + [Request(kind, s.revision, Probing)], pending := pending))
  {
    var t := s.(requests := s.requests + [Request(kind, s.revision, Probing)], pending := pending);
    forall i: nat | i < |t.changes| ensures StoredAt(t, i) {
      assert StoredAt(s, i);
    }
    forall q: nat | q < |t.requests| ensures Recorded(t, q) {
      assert q < |s.requests| ==> Recorded(s, q);
    }
  }

  lemma SignInKeeps(s: State)
    requires History(s) && SingleFlight(s)
    ensures History(Next(s, StartSignIn)) && SingleFlight(Next(s, StartSignIn))
  {
    var t := Next(s, StartSignIn);
    AddKeepsHistory(s, SignIn, s.pending);
    forall q: nat ensures Open(t, q) <==> Open(s, q) {
    }
  }

  lemma RenewKeeps(s: State)
    requires History(s) && SingleFlight(s)
    ensures History(RenewStep(s)) && SingleFlight(RenewStep(s))
  {
    var t := RenewStep(s);
    if t != s {
      AddKeepsHistory(s, Renewal, Some(Pending(s.revision, |s.requests|)));
      forall q: nat ensures Open(t, q) <==> Open(s, q) || q == |s.requests| {
      }
    }
  }

  lemma FinallyKeeps(s: State, r: nat)
    requires Enabled(s, Finally(r)) && History(s) && SingleFlight(s)
    ensures History(Next(s, Finally(r))) && SingleFlight(Next(s, Finally(r)))
  {
    var t := Next(s, Finally(r));
    MoveKeepsHistory(s, r, Closed(s.requests[r].stage.result));
    var m := Move(s, r, Closed(s.requests[r].stage.result));
    assert History(t) by {
      assert forall i: nat | i < |t.changes| :: StoredAt(m, i) ==> StoredAt(t, i);
      assert forall q: nat | q < |t.requests| :: Recorded(m, q) ==> Recorded(t, q);
    }
    forall q: nat ensures Open(t, q) <==> Open(s, q) && q != r {
    }
  }

  lemma ReplyKeeps(s: State, r: nat, reply: Reply)
    requires Enabled(s, Replied(r, reply)) && History(s) && SingleFlight(s)
    ensures History(ReplyStep(s, r, reply)) && SingleFlight(ReplyStep(s, r, reply))
  {
    hide History, SingleFlight;
    MoveKeeps(s, r, Settled(Threw));
    MoveKeeps(s, r, Settled(Declined));
    if reply.Matched? && s.requests[r].revision == s.revision {
      AcceptKeeps(s, r, reply.session);
    }
  }

  lemma {:induction false} RunKeeps(initial: Option<Session>, events: seq<Event>)
    requires Possible(initial, events)
    ensures History(After(initial, events)) && SingleFlight(After(initial, events))
  {
    if events != [] {
      var n := |events| - 1;
      RunKeeps(initial, events[..n]);
      hide History, SingleFlight;
      var s := After(initial, events[..n]);
      match events[n]
      case SetSession(session) => OutsideKeeps(s, session);
      case StartSignIn => SignInKeeps(s);
      case Renew => RenewKeeps(s);
      case Probed(r, enabled) =>
        MoveKeeps(s, r, if enabled == Some(true) then Requesting else Settled(if enabled.None? then Threw else Declined));
      case Replied(r, reply) => ReplyKeeps(s, r, reply);
      case Abort(r) => MoveKeeps(s, r, Settled(Threw));
      case Finally(r) => FinallyKeeps(s, r);
    }
  }

  // ---------------------------------------------------------------------------------------------
  // What every run guarantees

  /**
   A stored response found the session as its request had left it: the request captured exactly the
   changes made before the response's own.
   */
  lemma NothingChangedMeanwhile(initial: Option<Session>, events: seq<Event>, i: nat)
    requires Possible(initial, events) && i < |After(initial, events).changes| && After(initial, events).changes[i].Response?
    ensures var s := After(initial, events);
            var r := s.changes[i].request;
            r < |s.requests| && s.requests[r].revision == i && Outcome(s.requests[r]) == Some(Accepted)
  {
    RunKeeps(initial, events);
    assert StoredAt(After(initial, events), i);
  }

  /** No request made before a sign-out, or before any other change, brings a session back after it. */
  lemma ChangeCancelsEarlierRequests(initial: Option<Session>, events: seq<Event>, i: nat, j: nat)
    requires Possible(initial, events) && i < j < |After(initial, events).changes|
    requires After(initial, events).changes[j].Response?
    ensures var s := After(initial, events);
            s.changes[j].request < |s.requests| && s.requests[s.changes[j].request].revision > i
  {
    RunKeeps(initial, events);
    assert StoredAt(After(initial, events), j);
  }

  /** A request is reported accepted exactly if its response was stored. */
  lemma AcceptedMeansStored(initial: Option<Session>, events: seq<Event>, r: nat)
    requires Possible(initial, events) && r < |After(initial, events).requests|
    ensures var s := After(initial, events);
            Outcome(s.requests[r]) == Some(Accepted) <==>
              exists i | 0 <= i < |s.changes| :: s.changes[i].Response? && s.changes[i].request == r
  {
    RunKeeps(initial, events);
    var s := After(initial, events);
    assert Recorded(s, r);
    if i :| 0 <= i < |s.changes| && s.changes[i].Response? && s.changes[i].request == r {
      assert StoredAt(s, i);
    }
  }

  /** Two renewals under way at once were asked for at different revisions. */
  lemma OneRenewalPerRevision(initial: Option<Session>, events: seq<Event>, q: nat, r: nat)
    requires Possible(initial, events) && q != r
    requires Open(After(initial, events), q) && Open(After(initial, events), r)
    ensures After(initial, events).requests[q].revision != After(initial, events).requests[r].revision
  {
    RunKeeps(initial, events);
  }

  /** A renewal asked for while one of the same revision is under way joins it. */
  lemma RenewalJoins(initial: Option<Session>, events: seq<Event>, r: nat)
    requires Possible(initial, events) && Open(After(initial, events), r)
    requires After(initial, events).requests[r].revision == After(initial, events).revision
    ensures RenewStep(After(initial, events)) == After(initial, events)
    ensures After(initial, events).pending == Some(Pending(After(initial, events).revision, r))
  {
    RunKeeps(initial, events);
  }

  /**
   A renewal starts a request exactly if there is a session and no renewal of the present revision is under
   way: one that a change overtook is not waited for.
   */
  lemma RenewalStarts(initial: Option<Session>, events: seq<Event>)
    requires Possible(initial, events)
    ensures var s := After(initial, events); var t := RenewStep(s);
      && (t != s <==> s.cache.Some? && forall r: nat | Open(s, r) :: s.requests[r].revision != s.revision)
      && (t != s ==> t.requests == s.requests + [Request(Renewal, s.revision, Probing)] && t.cache == s.cache
                     && t.changes == s.changes && t.pending == Some(Pending(s.revision, |s.requests|)))
  {
    RunKeeps(initial, events);
    var s := After(initial, events);
    if s.pending.Some? && s.pending.value.revision == s.revision {
      assert Open(s, s.pending.value.request);
    }
  }

  // ---------------------------------------------------------------------------------------------
  // What a request is told

  /** The event that settles request `r` with `result`, in the state it meets. */
  ghost predicate Settles(s: State, e: Event, r: nat, result: Result)
    requires r < |s.requests|
  {
    var same := s.revision == s.requests[r].revision;
    match e
    case Probed(q, enabled) =>
      q == r && (if enabled.None? then result.Threw? else !enabled.value && result.Declined?)
    case Abort(q) => q == r && result.Threw?
    case Replied(q, Failed) => q == r && result.Threw?
    case Replied(q, Matched(_)) =>
      q == r && (if same then result.Accepted? else if s.requests[r].kind.Renewal? then result.Declined? else result.Threw?)
    case Replied(q, NoMatch) =>
      q == r && (if same && s.requests[r].kind.SignIn? then result.Declined? else result.Threw?)
    case _ => false
  }

  lemma SettleStep(s: State, e: Event, r: nat, result: Result)
    requires Enabled(s, e) && r < |Next(s, e).requests| && Outcome(Next(s, e).requests[r]) == Some(result)
    ensures r < |s.requests|
    ensures Outcome(s.requests[r]) == Some(result) || Settles(s, e, r, result)
  {
  }

  /**
   The outcome of a request is explained by one event. A response whose session changed meanwhile is an
   error for a sign-in and a refusal for a renewal; one without a match is a refusal for a sign-in, unless the
   session changed, and an error for a renewal; a disabled server is a refusal for either.
   */
  lemma {:induction false} OutcomeIsExplained(initial: Option<Session>, events: seq<Event>, r: nat, result: Result)
    requires Possible(initial, events) && r < |After(initial, events).requests|
    requires Outcome(After(initial, events).requests[r]) == Some(result)
    ensures exists k: nat :: k < |events| && Possible(initial, events[..k])
              && r < |After(initial, events[..k]).requests| && Settles(After(initial, events[..k]), events[k], r, result)
    decreases |events|
  {
    var n := |events| - 1;
    var s := After(initial, events[..n]);
    hide Settles;
    SettleStep(s, events[n], r, result);
    if Outcome(s.requests[r]) == Some(result) {
      OutcomeIsExplained(initial, events[..n], r, result);
      var k: nat :| k < n && Possible(initial, events[..n][..k])
        && r < |After(initial, events[..n][..k]).requests| && Settles(After(initial, events[..n][..k]), events[..n][k], r, result);
      assert events[..n][..k] == events[..k];
      assert Settles(After(initial, events[..k]), events[k], r, result);
    }
  }

  // ---------------------------------------------------------------------------------------------
  // The session the page holds

  /** What the last change chose or brought, or what the storage held when there was none. */
  function Latest(initial: Option<Session>, changes: seq<Change>): Option<Session> {
    if changes == [] then initial
    else
      match changes[|changes| - 1]
      case Outside(chosen) => chosen
      case Response(_, session) => Some(session)
  }

  /** In every run the page holds the session of the last change, whoever made it. */
  lemma {:induction false} HoldsLatest(initial: Option<Session>, events: seq<Event>)
    requires Possible(initial, events)
    ensures After(initial, events).cache == Latest(initial, After(initial, events).changes)
  {
    if events != [] {
      HoldsLatest(initial, events[..|events| - 1]);
    }
  }

  /** Changes are only ever added, by the page's own choice or by a response of the session it asked for. */
  lemma ChangeStep(s: State, e: Event)
    requires Enabled(s, e)
    ensures (Next(s, e).changes == s.changes && Next(s, e).cache == s.cache) ||
            (e.SetSession? && Next(s, e).changes == s.changes + [Outside(e.session)]) ||
            (e.Replied? && e.reply.Matched? && s.requests[e.request].revision == s.revision
             && Next(s, e).changes == s.changes + [Response(e.request, e.reply.session)])
    ensures e.SetSession? ==> Next(s, e).changes == s.changes + [Outside(e.session)]
  {
  }

  lemma {:induction false} ChangesGrow(initial: Option<Session>, events: seq<Event>, k: nat)
    requires Possible(initial, events) && k <= |events|
    ensures Possible(initial, events[..k]) && After(initial, events[..k]).changes <= After(initial, events).changes
    decreases |events|
  {
    if k == |events| {
      assert events[..k] == events;
    } else {
      var n := |events| - 1;
      ChangesGrow(initial, events[..n], k);
      assert events[..n][..k] == events[..k];
      ChangeStep(After(initial, events[..n]), events[n]);
    }
  }

  lemma RequestsStay(s: State, e: Event)
    requires Enabled(s, e)
    ensures |s.requests| <= |Next(s, e).requests|
    ensures forall r | 0 <= r < |s.requests| :: Next(s, e).requests[r].revision == s.requests[r].revision
  {
  }

  /** A request keeps the revision it captured. */
  lemma {:induction false} RevisionStays(initial: Option<Session>, events: seq<Event>, k: nat, r: nat)
    requires Possible(initial, events) && k <= |events| && Possible(initial, events[..k])
    requires r < |After(initial, events[..k]).requests|
    ensures r < |After(initial, events).requests|
    ensures After(initial, events).requests[r].revision == After(initial, events[..k]).requests[r].revision
    decreases |events|
  {
    if k == |events| {
      assert events[..k] == events;
    } else {
      var n := |events| - 1;
      assert events[..n][..k] == events[..k];
      RevisionStays(initial, events[..n], k, r);
      RequestsStay(After(initial, events[..n]), events[n]);
    }
  }

  /** Until something else changes it, a session chosen by the page is the one it holds. */
  lemma {:induction false} SignOutHolds(initial: Option<Session>, events: seq<Event>, k: nat)
    requires Possible(initial, events) && k < |events| && events[k] == SetSession(None)
    ensures Possible(initial, events[..k]) && Possible(initial, events[..k + 1])
    ensures var s, t := After(initial, events[..k]), After(initial, events);
      && s.changes + [Outside(None)] <= t.changes
      && (t.cache.Some? ==> |t.changes| > |s.changes| + 1)
      && (t.changes == s.changes + [Outside(None)] ==> t.cache == None && RenewStep(t) == t)
  {
    ChangesGrow(initial, events, k);
    ChangesGrow(initial, events, k + 1);
    assert events[..k + 1][..k] == events[..k];
    ChangeStep(After(initial, events[..k]), events[k]);
    HoldsLatest(initial, events);
  }

  /**
   After a sign-out no request made before it ever brings a session: if the page holds one again, then it
   was chosen by the page itself, or it is the response of a request made after the sign-out.
   */
  lemma SignOutIsFinal(initial: Option<Session>, events: seq<Event>, k: nat)
    requires Possible(initial, events) && k < |events| && events[k] == SetSession(None)
    requires After(initial, events).cache.Some?
    ensures Possible(initial, events[..k])
    ensures var s, t := After(initial, events[..k]), After(initial, events);
      && |t.changes| > |s.changes| + 1
      && var last := t.changes[|t.changes| - 1];
         && t.cache == (if last.Outside? then last.chosen else Some(last.session))
         && (last.Response? ==> last.request >= |s.requests|)
  {
    SignOutHolds(initial, events, k);
    HoldsLatest(initial, events);
    var s, t := After(initial, events[..k]), After(initial, events);
    var j := |t.changes| - 1;
    if t.changes[j].Response? {
      ChangeCancelsEarlierRequests(initial, events, |s.changes|, j);
      RunKeeps(initial, events[..k]);
      var r := t.changes[j].request;
      if r < |s.requests| {
        RevisionStays(initial, events, k, r);
      }
    }
  }

  // ---------------------------------------------------------------------------------------------
  // The page

  class Page {
    var revision: nat
    var cache: Option<Session>
    var pending: Option<Pending>
    var requests: seq<Request>
    ghost var changes: seq<Change>

    constructor (initial: Option<Session>)
      ensures Snapshot() == State(0, initial, None, [], [])
    {
      revision, cache, pending, requests, changes := 0, initial, None, [], [];
    }

    ghost function Snapshot(): State
      reads this
    {
      State(revision, cache, pending, requests, changes)
    }

    method SetLocalSession(next: Option<Session>, ghost change: Change)
      requires next == if change.Outside? then change.chosen else Some(change.session)
      modifies this
      ensures Snapshot() == Store(old(Snapshot()), change)
    {
      revision, cache, changes := revision + 1, next, changes + [change];
    }

    method RenewSession() returns (request: Option<nat>)
      modifies this
      ensures Snapshot() == RenewStep(old(Snapshot()))
      ensures request == if old(cache).None? then None
                         else if old(Snapshot()) == Snapshot() then Some(pending.value.request)
                         else Some(|old(requests)|)
    {
      if cache.None? {
        return None;
      }
      if pending.Some? && pending.value.revision == revision {
        return Some(pending.value.request);
      }
      request := Some(|requests|);
      requests := requests + [Request(Renewal, revision, Probing)];
      pending := Some(Pending(revision, request.value));
    }

    method AcceptReply(r: nat, reply: Reply)
      requires r < |requests| && requests[r].stage.Requesting?
      modifies this
      ensures Snapshot() == ReplyStep(old(Snapshot()), r, reply)
    {
      var request := requests[r];
      var result := Threw;
      if !reply.Failed? && (request.kind.Renewal? || revision == request.revision) {
        if reply.NoMatch? {
          result := if request.kind.SignIn? then Declined else Threw;
        } else if revision != request.revision {
          result := Declined;
        } else {
          result := Accepted;
          SetLocalSession(Some(reply.session), Response(r, reply.session));
        }
      }
      requests := requests[r := request.(stage := Settled(result))];
    }

    method RunFinally(r: nat)
      requires Enabled(Snapshot(), Finally(r))
      modifies this
      ensures Snapshot() == Next(old(Snapshot()), Finally(r))
    {
      requests := requests[r := requests[r].(stage := Closed(requests[r].stage.result))];
      if pending.Some? && pending.value.request == r {
        pending := None;
      }
    }
  }
}
