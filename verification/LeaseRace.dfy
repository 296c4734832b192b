/** Why a projection must not outlive its lease: a run that only loses one and renders one turn as two posts. */
module LeaseRace {
  import opened Prelude
  import opened Projection
  import opened Deliveries
  import opened LeaseStore
  import opened DeliveryProtocol
  import opened Conversation
  import opened StampedThread
  import opened SerialProjection
  import R = ThreadRendering

  /** Every event of the run leaves `b` undisturbed; leases may be lost. */
  ghost predicate Smooth(events: seq<Event>, b: nat)
    requires Possible(events)
  {
    events == [] || (var n := |events| - 1; Smooth(events[..n], b) && Undisturbed(After(events[..n]), events[n], b))
  }

  const HERE := Place("slack", "C1", "root")
  const FIRST := Message(0, Agent, Text, None, None)
  const SECOND := Message(1, Agent, Text, None, None)

  /** Where a run has led, and what it did to conversation 0. */
  ghost predicate Leads(events: seq<Event>, s: State, posts: seq<Entry>, msgs: seq<Message>) {
    && Possible(events) && After(events) == s && Smooth(events, 0)
    && Posts(events, 0) == posts && Messages(Visits(events, 0)) == msgs
  }

  lemma Then(events: seq<Event>, s: State, posts: seq<Entry>, msgs: seq<Message>, e: Event) returns (more: seq<Event>)
    requires Leads(events, s, posts, msgs) && Enabled(s, e) && Undisturbed(s, e, 0)
    ensures more == events + [e]
    ensures Leads(more, Next(s, e), PostsAfter(s, e, posts, 0),
              msgs + (if e.Claim? && e.won && BindingOf(s, e.attempt) == 0 then [RowOf(s, e.attempt).msg] else []))
  {
    hide Next, Enabled, Undisturbed, PostsAfter;
    more := events + [e];
    assert more[..|events|] == events && more[|events|] == e;
  }

  /** Two narrations of one agent turn, committed and not yet delivered. */
  ghost const TWO_QUEUED: State :=
    INITIAL.(now := 3, bindings := map[0 := Binding(HERE, None, 0, 0, None)],
             rows := map[0 := Row(0, FIRST, 0, Queued), 1 := Row(0, SECOND, 0, Queued)])

  lemma Commit() returns (events: seq<Event>)
    ensures Leads(events, TWO_QUEUED, [], [])
  {
    events := Then([], INITIAL, [], [], Bind(0, HERE));
    events := Then(events, Next(INITIAL, Bind(0, HERE)), [], [], Enqueue(0, 0, FIRST));
    events := Then(events, Next(Next(INITIAL, Bind(0, HERE)), Enqueue(0, 0, FIRST)), [], [], Enqueue(1, 0, SECOND));
    assert Next(Next(Next(INITIAL, Bind(0, HERE)), Enqueue(0, 0, FIRST)), Enqueue(1, 0, SECOND)) == TWO_QUEUED;
  }

  ghost predicate At(s: State, a: nat, r: nat, claimed: bool, stage: Stage) {
    && a in s.attempts && s.attempts[a] == Attempt(r, claimed, false, stage)
    && r in s.rows && s.rows[r].binding == 0 && 0 in s.bindings && s.bindings[0].place == HERE
    && Narrates(s.rows[r].msg)
  }

  ghost function To(s: State, a: nat, r: nat, stage: Stage): State {
    s.(now := s.now + 1, attempts := s.attempts[a := Attempt(r, true, false, stage)])
  }

  /** A narration is claimed as soon as the lease is taken. */
  lemma Leasing(s: State, r: nat)
    requires r in s.rows && s.rows[r].binding == 0 && s.now !in s.attempts && IsFree(s.leases, 0, s.clock)
    ensures var e := Acquire(r); Enabled(s, e) && Undisturbed(s, e, 0)
    ensures Next(s, Acquire(r)) ==
      s.(now := s.now + 1, leases := Granted(s.leases, 0, s.now, s.clock, LEASE_TTL_MS),
         attempts := s.attempts[s.now := Attempt(r, false, false, Leased)])
  {
  }

  lemma Claiming(s: State, a: nat, r: nat)
    requires At(s, a, r, false, Leased) && s.rows[r].state.Queued?
    ensures var e := Claim(a, true); Enabled(s, e) && Undisturbed(s, e, 0)
    ensures Next(s, Claim(a, true)) ==
      To(s, a, r, Applying(ReadWorking)).(rows := s.rows[r := s.rows[r].(state := Sending)])
  {
    hide HandsOff;
  }

  lemma Reading(s: State, a: nat, r: nat)
    requires At(s, a, r, true, Applying(ReadWorking)) && s.bindings[0].working.None?
    ensures var e := Await(a, Accept); Enabled(s, e) && Undisturbed(s, e, 0)
    ensures Next(s, Await(a, Accept)) == To(s, a, r, Applying(PostNarration))
  {
  }

  lemma Posting(s: State, posts: seq<Entry>, a: nat, r: nat)
    requires At(s, a, r, true, Applying(PostNarration))
    ensures var e := Await(a, Accept); Enabled(s, e) && Undisturbed(s, e, 0)
    ensures PostsAfter(s, Await(a, Accept), posts, 0) == posts + [Entry(s.now, Activity(s.rows[r].msg))]
    ensures Next(s, Await(a, Accept)) ==
      To(s, a, r, Applying(SetWorking(s.now))).(creations := s.creations + [Creation(a, r, 0, false, s.now, false)])
  {
  }

  lemma Storing(s: State, a: nat, r: nat, post: nat)
    requires At(s, a, r, true, Applying(SetWorking(post)))
    ensures var e := Await(a, Accept); Enabled(s, e) && Undisturbed(s, e, 0)
    ensures Next(s, Await(a, Accept)) ==
      To(s, a, r, Renewing(Result(Posted, Some(post), false))).(
        bindings := s.bindings[0 := s.bindings[0].(working := Some(post))])
  {
  }

  lemma Passing(s: State)
    ensures var e := Pass(LEASE_TTL_MS); Enabled(s, e) && Undisturbed(s, e, 0)
    ensures Next(s, Pass(LEASE_TTL_MS)) == s.(now := s.now + 1, clock := s.clock + LEASE_TTL_MS)
  {
  }

  /** A worker takes the lease and claims its narration. */
  lemma Begin(events: seq<Event>, s: State, posts: seq<Entry>, msgs: seq<Message>, r: nat) returns (more: seq<Event>, s': State)
    requires Leads(events, s, posts, msgs)
    requires r in s.rows && s.rows[r].binding == 0 && s.rows[r].state.Queued? && Narrates(s.rows[r].msg)
    requires 0 in s.bindings && s.bindings[0].place == HERE && s.now !in s.attempts && IsFree(s.leases, 0, s.clock)
    ensures Leads(more, s', posts, msgs + [s.rows[r].msg])
    ensures s' == s.(now := s.now + 2, leases := Granted(s.leases, 0, s.now, s.clock, LEASE_TTL_MS),
                     rows := s.rows[r := s.rows[r].(state := Sending)],
                     attempts := s.attempts[s.now := Attempt(r, true, false, Applying(ReadWorking))])
  {
    hide Enabled, Next, Undisturbed, Leads;
    var a := s.now;
    Leasing(s, r);
    more := Then(events, s, posts, msgs, Acquire(r));
    assert msgs + [] == msgs;
    s' := Next(s, Acquire(r));
    Claiming(s', a, r);
    more := Then(more, s', posts, msgs, Claim(a, true));
    s' := Next(s', Claim(a, true));
  }

  /** An await of the attempt `a` that posts nothing. */
  lemma Step(events: seq<Event>, s: State, posts: seq<Entry>, msgs: seq<Message>, a: nat) returns (more: seq<Event>)
    requires Leads(events, s, posts, msgs) && Enabled(s, Await(a, Accept)) && Undisturbed(s, Await(a, Accept), 0)
    requires !IsSlackCall(CallOf(RowOf(s, a).msg, s.attempts[a].stage.phase))
    ensures Leads(more, Next(s, Await(a, Accept)), posts, msgs)
  {
    hide Next, Undisturbed, Leads;
    more := Then(events, s, posts, msgs, Await(a, Accept));
    assert msgs + [] == msgs;
  }

  /** Both read, both post, both store their post. */
  lemma Both(events: seq<Event>, s: State) returns (more: seq<Event>, s': State)
    requires Leads(events, s, [], [FIRST, SECOND])
    requires s.attempts == map[3 := Attempt(0, true, false, Applying(ReadWorking)), 6 := Attempt(1, true, false, Applying(ReadWorking))]
    requires s.bindings == map[0 := Binding(HERE, None, 0, 0, None)]
    requires s.rows == map[0 := Row(0, FIRST, 0, Sending), 1 := Row(0, SECOND, 0, Sending)]
    ensures exists posts: seq<Entry> | |posts| == 2 :: Leads(more, s', posts, [FIRST, SECOND])
    ensures 0 in s'.bindings && forall a | a in s'.attempts :: s'.attempts[a].stage.Renewing?
  {
    hide Enabled, Next, Undisturbed, Leads, PostsAfter;
    Reading(s, 3, 0);
    more := Step(events, s, [], [FIRST, SECOND], 3);
    s' := Next(s, Await(3, Accept));
    Reading(s', 6, 1);
    more := Step(more, s', [], [FIRST, SECOND], 6);
    s' := Next(s', Await(6, Accept));
    more, s' := Narrate(more, s', [], 3, 0);
    assert [] + [Entry(s.now + 2, Activity(FIRST))] == [Entry(s.now + 2, Activity(FIRST))];
    more, s' := Narrate(more, s', [Entry(s.now + 2, Activity(FIRST))], 6, 1);
  }

  lemma Narrate(events: seq<Event>, s: State, posts: seq<Entry>, a: nat, r: nat) returns (more: seq<Event>, s': State)
    requires Leads(events, s, posts, [FIRST, SECOND]) && At(s, a, r, true, Applying(PostNarration))
    ensures Leads(more, s', posts + [Entry(s.now, Activity(s.rows[r].msg))], [FIRST, SECOND])
    ensures s'.now == s.now + 2 && s'.rows == s.rows
    ensures s'.attempts == s.attempts[a := Attempt(r, true, false, Renewing(Result(Posted, Some(s.now), false)))]
    ensures s'.bindings == s.bindings[0 := s.bindings[0].(working := Some(s.now))]
  {
    hide Enabled, Next, Undisturbed, Leads, PostsAfter;
    Posting(s, posts, a, r);
    more := Then(events, s, posts, [FIRST, SECOND], Await(a, Accept));
    assert [FIRST, SECOND] + [] == [FIRST, SECOND];
    s' := Next(s, Await(a, Accept));
    Storing(s', a, r, s.now);
    more := Step(more, s', posts + [Entry(s.now, Activity(s.rows[r].msg))], [FIRST, SECOND], a);
    s' := Next(s', Await(a, Accept));
  }

  /** Two narrations are one turn, and one post. */
  lemma OneTurn()
    ensures |R.Render(HERE, [FIRST, SECOND])| == 1
  {
    hide Replay, Deliver, R.Render, HandsOff;
    var t, u := Deliver(HERE, EMPTY, FIRST), Replay(HERE, [FIRST, SECOND]);
    R.ThreadIsRendering(HERE, [FIRST, SECOND]);
    assert [] + [FIRST] == [FIRST] && [FIRST] + [SECOND] == [FIRST, SECOND];
    ReplayOneMore(HERE, [], FIRST);
    ReplayOneMore(HERE, [FIRST], SECOND);
    assert Replay(HERE, []) == EMPTY by { ReplayOfNone(); }
    R.DeliverWorking(HERE, EMPTY, FIRST);
    assert t.entries == [Entry(0, Activity(FIRST))] && t.working == Some(0);
    assert Shows(t.entries, 0) by { assert t.entries[0].post == 0; }
    R.DeliverWorking(HERE, t, SECOND);
  }

  lemma ReplayOfNone()
    ensures Replay(HERE, []) == EMPTY
  {
  }

  lemma LedTo(events: seq<Event>, s: State, posts: seq<Entry>, msgs: seq<Message>)
    requires Leads(events, s, posts, msgs)
    ensures Possible(events) && After(events) == s && Smooth(events, 0)
    ensures Posts(events, 0) == posts && Messages(Visits(events, 0)) == msgs
  {
  }

  /**
   Both workers read that no turn is open, the first under a lease that then expires. No call fails, and
   nobody sweeps or reassigns anything, yet the thread has two posts where the turn is to have one.
   */
  lemma LeaseIsNeeded() returns (events: seq<Event>)
    ensures Possible(events) && Smooth(events, 0) && 0 in After(events).bindings
    ensures forall a | Of(After(events), a, 0) :: !After(events).attempts[a].stage.Applying?
    ensures Messages(Visits(events, 0)) == [FIRST, SECOND]
    ensures |Posts(events, 0)| == 2 && |R.Render(HERE, [FIRST, SECOND])| == 1
  {
    hide Enabled, Next, Undisturbed, Leads, R.Render;
    events := Commit();
    var s: State := TWO_QUEUED;
    events, s := Begin(events, s, [], [], 0);
    assert [] + [FIRST] == [FIRST];
    Passing(s);
    events := Then(events, s, [], [FIRST], Pass(LEASE_TTL_MS));
    s := Next(s, Pass(LEASE_TTL_MS));
    assert [FIRST] + [] == [FIRST];
    events, s := Begin(events, s, [], [FIRST], 1);
    assert [FIRST] + [SECOND] == [FIRST, SECOND];
    events, s := Both(events, s);
    var posts: seq<Entry> :| |posts| == 2 && Leads(events, s, posts, [FIRST, SECOND]);
    LedTo(events, s, posts, [FIRST, SECOND]);
    OneTurn();
  }
}
