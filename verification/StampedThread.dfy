/**
 Slack stamps posts as it likes. `Conversation` stamps each with the position of its message; this module
 gives posts other stamps and shows that deliveries do not care.
 */
module StampedThread {
  import opened Prelude
  import opened Projection
  import opened Conversation
  import R = ThreadRendering

  /** The stamp of the post that message `post` created. */
  function Name(post: nat, stamps: seq<nat>): nat {
    if post < |stamps| then stamps[post] else post
  }

  function NamePost(post: Option<nat>, stamps: seq<nat>): Option<nat> {
    if post.Some? then Some(Name(post.value, stamps)) else None
  }

  function Named(entries: seq<Entry>, stamps: seq<nat>): (r: seq<Entry>)
    ensures |r| == |entries|
  {
    if entries == [] then []
    else [Entry(Name(entries[0].post, stamps), entries[0].shown)] + Named(entries[1..], stamps)
  }

  /** The thread with its posts renamed, at the time `clock`. */
  function NamedThread(t: Thread, stamps: seq<nat>, clock: nat): Thread {
    Thread(Named(t.entries, stamps), NamePost(t.working, stamps), NamePost(t.status, stamps), t.version, t.ambiguous, clock)
  }

  predicate Below(entries: seq<Entry>, n: nat) {
    forall i | 0 <= i < |entries| :: entries[i].post < n
  }

  predicate PostsBelow(t: Thread, n: nat) {
    && Below(t.entries, n) && (t.working.Some? ==> t.working.value < n) && (t.status.Some? ==> t.status.value < n)
  }

  predicate PostsShown(t: Thread) {
    (t.working.Some? ==> Shows(t.entries, t.working.value)) && (t.status.Some? ==> Shows(t.entries, t.status.value))
  }

  lemma {:induction false} NamedRewrite(entries: seq<Entry>, stamps: seq<nat>, post: nat, shown: Shown)
    requires Distinct(stamps) && Below(entries, |stamps|) && post < |stamps|
    ensures Named(Rewrite(entries, post, shown), stamps) == Rewrite(Named(entries, stamps), stamps[post], shown)
    ensures Named(Without(entries, post), stamps) == Without(Named(entries, stamps), stamps[post])
  {
    if entries != [] {
      NamedRewrite(entries[1..], stamps, post, shown);
      var rest := Without(entries[1..], post);
      assert [] + rest == rest && ([entries[0]] + rest)[1..] == rest;
      assert [] + Named(rest, stamps) == Named(rest, stamps);
    }
  }

  lemma {:induction false} NamedAppend(x: seq<Entry>, y: seq<Entry>, stamps: seq<nat>)
    ensures Named(x + y, stamps) == Named(x, stamps) + Named(y, stamps)
  {
    if x == [] {
      assert x + y == y;
    } else {
      assert (x + y)[1..] == x[1..] + y;
      NamedAppend(x[1..], y, stamps);
    }
  }

  lemma {:induction false} NamedShows(entries: seq<Entry>, stamps: seq<nat>, post: nat)
    requires Shows(entries, post)
    ensures Shows(Named(entries, stamps), Name(post, stamps))
  {
    var i :| 0 <= i < |entries| && entries[i].post == post;
    if i == 0 {
      assert Named(entries, stamps)[0].post == Name(post, stamps);
    } else {
      assert entries[1..][i - 1].post == post;
      NamedShows(entries[1..], stamps, post);
      var k :| 0 <= k < |Named(entries[1..], stamps)| && Named(entries[1..], stamps)[k].post == Name(post, stamps);
      assert Named(entries, stamps)[k + 1].post == Name(post, stamps);
    }
  }

  /** More stamps do not change the posts that have theirs. */
  lemma {:induction false} NamedLonger(entries: seq<Entry>, stamps: seq<nat>, n: nat)
    requires n <= |stamps| && Below(entries, n)
    ensures Named(entries, stamps[..n]) == Named(entries, stamps)
  {
    if entries != [] {
      NamedLonger(entries[1..], stamps, n);
    }
  }

  lemma NamedPostsShown(t: Thread, stamps: seq<nat>, clock: nat)
    requires PostsShown(t)
    ensures PostsShown(NamedThread(t, stamps, clock))
  {
    hide Shows, Named;
    if t.working.Some? {
      NamedShows(t.entries, stamps, t.working.value);
    }
    if t.status.Some? {
      NamedShows(t.entries, stamps, t.status.value);
    }
  }

  lemma ThreadLonger(t: Thread, stamps: seq<nat>, n: nat, clock: nat)
    requires n <= |stamps| && PostsBelow(t, n)
    ensures NamedThread(t, stamps[..n], clock) == NamedThread(t, stamps, clock)
  {
    NamedLonger(t.entries, stamps, n);
  }

  /** What a delivery does to the renamed thread is what it does to the thread, renamed. */
  lemma EffectNamed(place: Place, t: Thread, m: Message, stamps: seq<nat>)
    requires Distinct(stamps) && |stamps| == t.clock + 1 && PostsBelow(t, t.clock)
    ensures var n := t.clock;
      R.Effect(place, NamedThread(t, stamps, stamps[n]), m) == NamedThread(R.Effect(place, t, m), stamps, stamps[n] + 1)
  {
    if m.kind.Lifecycle? {
      StatusEffectNamed(place, t, m, stamps);
    } else {
      WorkingEffectNamed(place, t, m, stamps);
    }
  }

  lemma StatusEffectNamed(place: Place, t: Thread, m: Message, stamps: seq<nat>)
    requires Distinct(stamps) && |stamps| == t.clock + 1 && PostsBelow(t, t.clock) && m.kind.Lifecycle?
    ensures var n := t.clock;
      R.Effect(place, NamedThread(t, stamps, stamps[n]), m) == NamedThread(R.Effect(place, t, m), stamps, stamps[n] + 1)
  {
    hide HandsOff, Rewrite, Without, Named;
    if t.status.Some? {
      EditNamed(t.entries, stamps, t.status.value, Body(m, IncidentLink));
    }
    AppendsNamed(t.entries, stamps, t.clock);
  }

  lemma WorkingEffectNamed(place: Place, t: Thread, m: Message, stamps: seq<nat>)
    requires Distinct(stamps) && |stamps| == t.clock + 1 && PostsBelow(t, t.clock) && !m.kind.Lifecycle?
    ensures var n := t.clock;
      R.Effect(place, NamedThread(t, stamps, stamps[n]), m) == NamedThread(R.Effect(place, t, m), stamps, stamps[n] + 1)
  {
    hide HandsOff, Rewrite, Without, Named, Standalone;
    AppendsNamed(t.entries, stamps, t.clock);
    if t.working.Some? {
      var o := t.working.value;
      EditNamed(t.entries, stamps, o, Body(m, IncidentLink));
      EditNamed(t.entries, stamps, o, Activity(m));
      EditNamed(t.entries, stamps, o, Received(m));
      AppendsNamed(Without(t.entries, o), stamps, t.clock);
    }
  }

  lemma EditNamed(entries: seq<Entry>, stamps: seq<nat>, o: nat, shown: Shown)
    requires Distinct(stamps) && o < |stamps| - 1 && Below(entries, |stamps| - 1)
    ensures Named(Rewrite(entries, o, shown), stamps) == Rewrite(Named(entries, stamps), Name(o, stamps), shown)
    ensures Named(Without(entries, o), stamps) == Without(Named(entries, stamps), Name(o, stamps))
  {
    NamedRewrite(entries, stamps, o, shown);
  }

  lemma AppendsNamed(entries: seq<Entry>, stamps: seq<nat>, n: nat)
    requires n < |stamps|
    ensures forall shown :: Named(entries + [Entry(n, shown)], stamps) == Named(entries, stamps) + [Entry(stamps[n], shown)]
  {
    forall shown ensures Named(entries + [Entry(n, shown)], stamps) == Named(entries, stamps) + [Entry(stamps[n], shown)] {
      NamedAppend(entries, [Entry(n, shown)], stamps);
      assert Named([Entry(n, shown)], stamps) == [Entry(stamps[n], shown)];
    }
  }

  lemma {:induction false} LayBelow(slots: seq<Option<Shown>>)
    ensures Below(R.Lay(slots), |slots|)
    decreases |slots|
  {
    if slots != [] {
      LayBelow(slots[..|slots| - 1]);
    }
  }

  /** What a replayed thread has stored is in it. */
  lemma ReplayIsSound(place: Place, msgs: seq<Message>)
    ensures var t := Replay(place, msgs); t.clock == |msgs| && PostsBelow(t, |msgs|) && PostsShown(t)
    ensures Replay(place, msgs).ambiguous <==> R.Unversioned(msgs)
  {
    hide Shows, Replay, R.Lay;
    R.ReplayAgrees(place, msgs);
    R.PostsAreThere(place, msgs, Replay(place, msgs));
    LayBelow(R.Slots(place, msgs));
  }

  /** A delivery to the renamed thread is the renamed delivery. */
  lemma DeliverNamed(place: Place, msgs: seq<Message>, m: Message, stamps: seq<nat>)
    requires Distinct(stamps) && |stamps| == |msgs| + 1
    ensures var n := |msgs|;
      Deliver(place, NamedThread(Replay(place, msgs), stamps[..n], stamps[n]), m) ==
        NamedThread(Replay(place, msgs + [m]), stamps, stamps[n] + 1)
  {
    hide Shows, Deliver, Replay, R.Effect;
    var n, t := |msgs|, Replay(place, msgs);
    ReplayIsSound(place, msgs);
    ThreadLonger(t, stamps, n, stamps[n]);
    var named := NamedThread(t, stamps, stamps[n]);
    NamedPostsShown(t, stamps, stamps[n]);
    DeliverIsEffect(place, t, m);
    DeliverIsEffect(place, named, m);
    EffectNamed(place, t, m, stamps);
    ReplayOneMore(place, msgs, m);
  }

  lemma ReplayOneMore(place: Place, msgs: seq<Message>, m: Message)
    ensures Replay(place, msgs + [m]) == Deliver(place, Replay(place, msgs), m)
  {
    assert (msgs + [m])[..|msgs|] == msgs;
  }

  lemma DeliverIsEffect(place: Place, t: Thread, m: Message)
    requires PostsShown(t)
    ensures Deliver(place, t, m) == R.Effect(place, t, m)
  {
    hide Deliver, R.Effect, Shows;
    if m.kind.Lifecycle? {
      R.DeliverStatus(place, t, m);
    } else {
      R.DeliverWorking(place, t, m);
    }
  }

  /** How a projection that meets no mishap ends. */
  lemma CleanEnd(place: Place, t: Thread, m: Message)
    requires PostsShown(t) && (m.kind.Lifecycle? ==> m.version.Some?)
    ensures var end := RunAlone(m, Start(place, m), t).1;
      end.Returned? || (end == Threw(ProjectionBlocked) && m.kind.Lifecycle?)
  {
    hide RunAlone, Deliver, R.Effect, Shows;
    if m.kind.Lifecycle? {
      R.DeliverStatus(place, t, m);
    } else {
      R.DeliverWorking(place, t, m);
    }
  }
}
