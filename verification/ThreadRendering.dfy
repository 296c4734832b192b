/**
 What a bound thread shows after any list of messages, said without replaying them: which messages
 open, continue and end an agent turn is read off the whole list, and each post is placed at the
 message that opened it.
 */
module ThreadRendering {
  import opened Prelude
  import opened Projection
  import opened Conversation

  // ---------------------------------------------------------------------------------------------
  // Roles of messages

  /** Any other agent message, a clarification request included, ends the turn without a word of its own. */
  predicate EndsSilently(m: Message) {
    !m.kind.Lifecycle? && !Standalone(m) && !Narrates(m) && !Concludes(m)
  }

  predicate HandsOver(place: Place, m: Message) {
    Standalone(m) && m.kind.Relationship? && HandsOff(place, m)
  }

  predicate Drops(m: Message) {
    Standalone(m) && m.kind.Finding?
  }

  predicate Closes(place: Place, m: Message) {
    Concludes(m) || EndsSilently(m) || HandsOver(place, m) || Drops(m)
  }

  function OwnLink(m: Message): Link {
    if m.kind.Postmortem? then PostmortemLink else if m.kind.Relationship? then IncidentLink else NoLink
  }

  /** Some narration before `i` has not been followed by a closing message yet. */
  ghost predicate OpenAt(place: Place, msgs: seq<Message>, i: nat)
    requires i <= |msgs|
  {
    exists k | 0 <= k < i :: Narrates(msgs[k]) && forall j | k < j < i :: !Closes(place, msgs[j])
  }

  /** The first closing message from `k` on; the length of the list when there is none. */
  function FirstClose(place: Place, msgs: seq<Message>, k: nat): (c: nat)
    requires k <= |msgs|
    ensures k <= c <= |msgs|
    ensures forall j | k <= j < c :: !Closes(place, msgs[j])
    ensures c < |msgs| ==> Closes(place, msgs[c])
    decreases |msgs| - k
  {
    if k == |msgs| || Closes(place, msgs[k]) then k else FirstClose(place, msgs, k + 1)
  }

  /** The last narration between `i` and the end. */
  function LastNarration(msgs: seq<Message>, i: nat, end: nat): (k: nat)
    requires i < end <= |msgs| && Narrates(msgs[i])
    ensures i <= k < end && Narrates(msgs[k])
    ensures forall j | k < j < end :: !Narrates(msgs[j])
  {
    if Narrates(msgs[end - 1]) then end - 1 else LastNarration(msgs, i, end - 1)
  }

  /** What the post of the turn opened at `i` shows: its ending, or its latest narration, or nothing. */
  function TurnShows(place: Place, msgs: seq<Message>, i: nat): Option<Shown>
    requires i < |msgs| && Narrates(msgs[i])
  {
    var c := FirstClose(place, msgs, i + 1);
    if c == |msgs| then Some(Activity(msgs[LastNarration(msgs, i, |msgs|)]))
    else if Drops(msgs[c]) then None
    else if EndsSilently(msgs[c]) then Some(Received(msgs[c]))
    else Some(Body(msgs[c], IncidentLink))
  }

  /** The status post belongs to the first lifecycle message, provided that one carries a version. */
  ghost predicate OpensStatus(msgs: seq<Message>, i: nat)
    requires i < |msgs|
  {
    msgs[i].kind.Lifecycle? && msgs[i].version.Some? && forall k | 0 <= k < i :: !msgs[k].kind.Lifecycle?
  }

  predicate Versioned(m: Message) {
    m.kind.Lifecycle? && m.version.Some?
  }

  /** The earliest of the newest lifecycle messages. */
  function Newest(msgs: seq<Message>, i: nat, end: nat): (k: nat)
    requires i < end <= |msgs| && Versioned(msgs[i])
    ensures i <= k < end && Versioned(msgs[k])
    ensures forall j | i <= j < end && Versioned(msgs[j]) :: msgs[j].version.value <= msgs[k].version.value
    ensures forall j | i <= j < k && Versioned(msgs[j]) :: msgs[j].version.value < msgs[k].version.value
  {
    if end == i + 1 then i
    else
      var k := Newest(msgs, i, end - 1);
      if Versioned(msgs[end - 1]) && msgs[end - 1].version.value > msgs[k].version.value then end - 1 else k
  }

  /** The post that message `i` put into the thread, as it looks at the end. */
  ghost function EntryAt(place: Place, msgs: seq<Message>, i: nat): Option<Shown>
    requires i < |msgs|
  {
    var m := msgs[i];
    if m.kind.Lifecycle? then
      if OpensStatus(msgs, i) then Some(Body(msgs[Newest(msgs, i, |msgs|)], IncidentLink)) else None
    else if Narrates(m) then
      if OpenAt(place, msgs, i) then None else TurnShows(place, msgs, i)
    else if Concludes(m) || HandsOver(place, m) then
      if OpenAt(place, msgs, i) then None else Some(Body(m, IncidentLink))
    else if EndsSilently(m) then None
    else Some(Body(m, OwnLink(m)))
  }

  ghost function Slots(place: Place, msgs: seq<Message>): (slots: seq<Option<Shown>>)
    ensures |slots| == |msgs| && forall i | 0 <= i < |msgs| :: slots[i] == EntryAt(place, msgs, i)
  {
    seq(|msgs|, i requires 0 <= i < |msgs| => EntryAt(place, msgs, i))
  }

  /** The non-empty slots in order, each a post stamped with its position. */
  function Lay(slots: seq<Option<Shown>>): seq<Entry> {
    if slots == [] then []
    else
      var n := |slots| - 1;
      Lay(slots[..n]) + Laid(n, slots[n])
  }

  ghost function Render(place: Place, msgs: seq<Message>): seq<Entry> {
    Lay(Slots(place, msgs))
  }

  // ---------------------------------------------------------------------------------------------
  // Editing a laid-out thread

  lemma RewriteAppend(x: seq<Entry>, y: seq<Entry>, post: nat, shown: Shown)
    ensures Rewrite(x + y, post, shown) == Rewrite(x, post, shown) + Rewrite(y, post, shown)
    ensures Without(x + y, post) == Without(x, post) + Without(y, post)
  {
    if x == [] {
      assert x + y == y;
    } else {
      assert (x + y)[1..] == x[1..] + y;
      RewriteAppend(x[1..], y, post, shown);
    }
  }

  lemma {:induction false} LayMisses(slots: seq<Option<Shown>>, o: nat, shown: Shown)
    requires o >= |slots|
    ensures Rewrite(Lay(slots), o, shown) == Lay(slots) && Without(Lay(slots), o) == Lay(slots)
    decreases |slots|
  {
    if slots != [] {
      var n := |slots| - 1;
      LayMisses(slots[..n], o, shown);
      RewriteAppend(Lay(slots[..n]), Laid(n, slots[n]), o, shown);
    }
  }

  /** Editing the post of slot `o` is editing the slot. */
  lemma {:induction false} LayEdits(slots: seq<Option<Shown>>, o: nat, shown: Shown)
    requires o < |slots| && slots[o].Some?
    ensures Rewrite(Lay(slots), o, shown) == Lay(slots[o := Some(shown)])
    ensures Without(Lay(slots), o) == Lay(slots[o := None])
    decreases |slots|
  {
    hide Lay, Rewrite, Without;
    var n := |slots| - 1;
    var last := slots[n];
    assert slots == slots[..n] + [last];
    LayAppend(slots[..n], last);
    RewriteAppend(Lay(slots[..n]), Laid(n, last), o, shown);
    if o < n {
      LayEdits(slots[..n], o, shown);
      assert slots[o := Some(shown)] == slots[..n][o := Some(shown)] + [last];
      assert slots[o := None] == slots[..n][o := None] + [last];
      LayAppend(slots[..n][o := Some(shown)], last);
      LayAppend(slots[..n][o := None], last);
      EditLaid(n, last, o, shown);
    } else {
      LayMisses(slots[..n], o, shown);
      assert slots[o := Some(shown)] == slots[..n] + [Some(shown)] && slots[o := None] == slots[..n] + [None];
      LayAppend(slots[..n], Some(shown));
      LayAppend(slots[..n], None);
      EditLaid(n, last, o, shown);
    }
  }

  /** The post of one slot, if it has one. */
  function Laid(n: nat, slot: Option<Shown>): seq<Entry> {
    if slot.Some? then [Entry(n, slot.value)] else []
  }

  lemma EditLaid(n: nat, slot: Option<Shown>, o: nat, shown: Shown)
    requires o == n ==> slot.Some?
    ensures Rewrite(Laid(n, slot), o, shown) == Laid(n, if o == n then Some(shown) else slot)
    ensures Without(Laid(n, slot), o) == Laid(n, if o == n then None else slot)
  {
  }

  lemma LayAppend(slots: seq<Option<Shown>>, x: Option<Shown>)
    ensures Lay(slots + [x]) == Lay(slots) + Laid(|slots|, x)
  {
    assert (slots + [x])[..|slots|] == slots;
  }

  lemma {:induction false} LayShows(slots: seq<Option<Shown>>, o: nat)
    requires o < |slots| && slots[o].Some?
    ensures Shows(Lay(slots), o)
    decreases |slots|
  {
    var n := |slots| - 1;
    if o < n {
      LayShows(slots[..n], o);
      var i :| 0 <= i < |Lay(slots[..n])| && Lay(slots[..n])[i].post == o;
      assert Lay(slots)[i].post == o;
    } else {
      assert Lay(slots)[|Lay(slots)| - 1].post == o;
    }
  }

  // ---------------------------------------------------------------------------------------------
  // One more message

  /** The turn open at the end of the list and the message that opened it. */
  ghost predicate Opener(place: Place, msgs: seq<Message>, o: nat) {
    && o < |msgs| && Narrates(msgs[o]) && !OpenAt(place, msgs, o)
    && forall j | o < j < |msgs| :: !Closes(place, msgs[j])
  }

  lemma OpenPrefix(place: Place, msgs: seq<Message>, m: Message, i: nat)
    requires i <= |msgs|
    ensures OpenAt(place, msgs + [m], i) == OpenAt(place, msgs, i)
  {
    var more := msgs + [m];
    assert forall k | 0 <= k < i :: more[k] == msgs[k];
    if OpenAt(place, msgs, i) {
      var k :| 0 <= k < i && Narrates(msgs[k]) && forall j | k < j < i :: !Closes(place, msgs[j]);
      assert Narrates(more[k]) && forall j | k < j < i :: !Closes(place, more[j]);
    }
    if OpenAt(place, more, i) {
      var k :| 0 <= k < i && Narrates(more[k]) && forall j | k < j < i :: !Closes(place, more[j]);
      assert Narrates(msgs[k]) && forall j | k < j < i :: !Closes(place, msgs[j]);
    }
  }

  lemma FirstCloseGrows(place: Place, msgs: seq<Message>, m: Message, k: nat)
    requires k <= |msgs|
    ensures FirstClose(place, msgs + [m], k) ==
      if FirstClose(place, msgs, k) < |msgs| || Closes(place, m) then FirstClose(place, msgs, k) else |msgs| + 1
    decreases |msgs| - k
  {
    var more := msgs + [m];
    if k < |msgs| {
      assert more[k] == msgs[k];
      FirstCloseGrows(place, msgs, m, k + 1);
    } else {
      assert more[k] == m;
    }
  }

  lemma LastNarrationGrows(msgs: seq<Message>, m: Message, i: nat, end: nat)
    requires i < end <= |msgs| && Narrates(msgs[i])
    ensures LastNarration(msgs + [m], i, end) == LastNarration(msgs, i, end)
  {
    assert (msgs + [m])[end - 1] == msgs[end - 1];
    if !Narrates(msgs[end - 1]) {
      LastNarrationGrows(msgs, m, i, end - 1);
    }
  }

  lemma NewestGrows(msgs: seq<Message>, m: Message, i: nat, end: nat)
    requires i < end <= |msgs| && Versioned(msgs[i])
    ensures Newest(msgs + [m], i, end) == Newest(msgs, i, end)
  {
    assert (msgs + [m])[end - 1] == msgs[end - 1];
    if end > i + 1 {
      NewestGrows(msgs, m, i, end - 1);
    }
  }

  lemma NewestOneMore(msgs: seq<Message>, m: Message, i: nat)
    requires i < |msgs| && Versioned(msgs[i])
    ensures var k := Newest(msgs, i, |msgs|);
      Newest(msgs + [m], i, |msgs| + 1) ==
        if Versioned(m) && m.version.value > msgs[k].version.value then |msgs| else k
  {
    assert (msgs + [m])[|msgs|] == m;
    NewestGrows(msgs, m, i, |msgs|);
  }

  lemma NewestOfOne(msgs: seq<Message>, i: nat)
    requires i < |msgs| && Versioned(msgs[i])
    ensures Newest(msgs, i, i + 1) == i
  {
  }

  /** How the post of the turn open at the end changes when `m` arrives. */
  function TurnAfter(place: Place, shown: Option<Shown>, m: Message): Option<Shown> {
    if Narrates(m) then Some(Activity(m))
    else if Drops(m) then None
    else if EndsSilently(m) then Some(Received(m))
    else if Concludes(m) || HandsOver(place, m) then Some(Body(m, IncidentLink))
    else shown
  }

  lemma TurnGrows(place: Place, msgs: seq<Message>, m: Message, i: nat)
    requires i < |msgs| && Narrates(msgs[i])
    ensures TurnShows(place, msgs + [m], i) ==
      if FirstClose(place, msgs, i + 1) == |msgs| then TurnAfter(place, TurnShows(place, msgs, i), m)
      else TurnShows(place, msgs, i)
  {
    var more := msgs + [m];
    assert more[|msgs|] == m && more[i] == msgs[i];
    FirstCloseGrows(place, msgs, m, i + 1);
    LastNarrationGrows(msgs, m, i, |msgs|);
    var k := LastNarration(msgs, i, |msgs|);
    assert more[k] == msgs[k];
    var c := FirstClose(place, msgs, i + 1);
    if c < |msgs| {
      assert more[c] == msgs[c];
    }
  }

  /** Old slots stay, except the post of the open turn and the status post. */
  lemma SlotGrows(place: Place, msgs: seq<Message>, m: Message, i: nat)
    requires i < |msgs|
    ensures EntryAt(place, msgs + [m], i) ==
      if Opener(place, msgs, i) then TurnAfter(place, EntryAt(place, msgs, i), m)
      else if OpensStatus(msgs, i) && Versioned(m) && m.version.value > msgs[Newest(msgs, i, |msgs|)].version.value
        then Some(Body(m, IncidentLink))
      else EntryAt(place, msgs, i)
  {
    var more := msgs + [m];
    assert more[i] == msgs[i] && more[|msgs|] == m;
    OpenPrefix(place, msgs, m, i);
    if msgs[i].kind.Lifecycle? {
      assert OpensStatus(more, i) == OpensStatus(msgs, i) by {
        assert forall k | 0 <= k < i :: more[k] == msgs[k];
      }
      if OpensStatus(msgs, i) {
        NewestGrows(msgs, m, i, |msgs|);
        var k := Newest(msgs, i, |msgs|);
        assert more[k] == msgs[k];
      }
    } else if Narrates(msgs[i]) {
      TurnGrows(place, msgs, m, i);
      assert Opener(place, msgs, i) <==> !OpenAt(place, msgs, i) && FirstClose(place, msgs, i + 1) == |msgs|;
    }
  }

  // ---------------------------------------------------------------------------------------------
  // Replay and rendering agree

  ghost predicate Unversioned(msgs: seq<Message>) {
    exists i | 0 <= i < |msgs| :: msgs[i].kind.Lifecycle? && msgs[i].version.None?
  }

  /** The stored working post is the open turn's, the stored status post the first lifecycle message's. */
  ghost predicate Agrees(place: Place, msgs: seq<Message>, t: Thread) {
    && t.clock == |msgs| && t.entries == Render(place, msgs)
    && (t.working.Some? ==> Opener(place, msgs, t.working.value))
    && (t.working.None? ==> !OpenAt(place, msgs, |msgs|))
    && (t.status.Some? ==>
          && t.status.value < |msgs| && OpensStatus(msgs, t.status.value)
          && t.version == msgs[Newest(msgs, t.status.value, |msgs|)].version.value)
    && (t.status.None? ==> forall i | 0 <= i < |msgs| :: !OpensStatus(msgs, i))
    && (t.ambiguous <==> Unversioned(msgs))
  }

  lemma OpenerUnique(place: Place, msgs: seq<Message>, o: nat)
    requires Opener(place, msgs, o)
    ensures OpenAt(place, msgs, |msgs|)
    ensures forall i: nat | Opener(place, msgs, i) :: i == o
  {
    forall i: nat | Opener(place, msgs, i) ensures i == o {
    }
  }

  /** The slots after one more message, in terms of what is stored. */
  lemma SlotsGrow(place: Place, msgs: seq<Message>, m: Message, t: Thread)
    requires Agrees(place, msgs, t)
    ensures forall i | 0 <= i < |msgs| ::
      Slots(place, msgs + [m])[i] ==
        if t.working == Some(i) then TurnAfter(place, Slots(place, msgs)[i], m)
        else if t.status == Some(i) && Versioned(m) && m.version.value > t.version then Some(Body(m, IncidentLink))
        else Slots(place, msgs)[i]
  {
    hide EntryAt, Render, TurnAfter;
    if t.working.Some? {
      OpenerUnique(place, msgs, t.working.value);
    }
    forall i | 0 <= i < |msgs|
      ensures Slots(place, msgs + [m])[i] ==
        if t.working == Some(i) then TurnAfter(place, Slots(place, msgs)[i], m)
        else if t.status == Some(i) && Versioned(m) && m.version.value > t.version then Some(Body(m, IncidentLink))
        else Slots(place, msgs)[i]
    {
      SlotGrows(place, msgs, m, i);
      if Opener(place, msgs, i) && t.working.None? {
        OpenerUnique(place, msgs, i);
      }
    }
  }

  lemma LastSlot(place: Place, msgs: seq<Message>, m: Message)
    ensures var more := msgs + [m]; var open := OpenAt(place, msgs, |msgs|);
      Slots(place, more)[|msgs|] ==
        if m.kind.Lifecycle? then
          (if m.version.Some? && (forall k | 0 <= k < |msgs| :: !msgs[k].kind.Lifecycle?)
           then Some(Body(m, IncidentLink)) else None)
        else if Narrates(m) then (if open then None else Some(Activity(m)))
        else if Concludes(m) || HandsOver(place, m) then (if open then None else Some(Body(m, IncidentLink)))
        else if EndsSilently(m) then None
        else Some(Body(m, OwnLink(m)))
  {
    var more := msgs + [m];
    assert more[|msgs|] == m && forall k | 0 <= k < |msgs| :: more[k] == msgs[k];
    OpenPrefix(place, msgs, m, |msgs|);
  }

  /** The thread laid out after `m`, given the slot it edits, if any. */
  lemma RenderGrows(place: Place, msgs: seq<Message>, m: Message, t: Thread)
    requires Agrees(place, msgs, t)
    ensures var slots := Slots(place, msgs); var more := Slots(place, msgs + [m]);
      && (t.working.Some? && !m.kind.Lifecycle? ==>
            var o := t.working.value;
            && o < |slots| && slots[o].Some? && Shows(t.entries, o)
            && more[..|msgs|] == slots[o := TurnAfter(place, slots[o], m)])
      && (t.status.Some? ==> slots[t.status.value].Some? && Shows(t.entries, t.status.value))
      && (t.status.Some? && Versioned(m) && m.version.value > t.version ==>
            more[..|msgs|] == slots[t.status.value := Some(Body(m, IncidentLink))])
      && (m.kind.Lifecycle? && !(t.status.Some? && Versioned(m) && m.version.value > t.version) ==>
            more[..|msgs|] == slots)
      && (!m.kind.Lifecycle? && t.working.None? ==> more[..|msgs|] == slots)
  {
    hide EntryAt, OpenAt, Unversioned, Render, Shows, Newest, HandsOff;
    SlotsGrow(place, msgs, m, t);
    PostsAreThere(place, msgs, t);
  }

  /** The stored posts are in the thread. */
  lemma PostsAreThere(place: Place, msgs: seq<Message>, t: Thread)
    requires Agrees(place, msgs, t)
    ensures var slots := Slots(place, msgs);
      && (t.working.Some? ==>
            t.working.value < |slots| && slots[t.working.value].Some? && Shows(t.entries, t.working.value))
      && (t.status.Some? ==>
            t.status.value < |slots| && slots[t.status.value].Some? && Shows(t.entries, t.status.value))
  {
    hide Unversioned, Lay, Shows, OpenAt;
    var slots := Slots(place, msgs);
    if t.working.Some? {
      LayShows(slots, t.working.value);
    }
    if t.status.Some? {
      LayShows(slots, t.status.value);
    }
  }

  /** What one delivery does, by the role of its message. */
  function Effect(place: Place, t: Thread, m: Message): Thread {
    var own := Body(m, IncidentLink);
    var edited := if m.kind.Lifecycle? then t.status else t.working;
    var t' :=
      if m.kind.Lifecycle? then
        if m.version.None? then t.(ambiguous := true)
        else if t.status.Some? then
          if t.version >= m.version.value then t
          else t.(entries := Rewrite(t.entries, t.status.value, own), version := m.version.value)
        else if t.ambiguous then t
        else t.(entries := t.entries + [Entry(t.clock, own)], status := Some(t.clock), version := m.version.value)
      else if Narrates(m) then
        if t.working.Some? then t.(entries := Rewrite(t.entries, t.working.value, Activity(m)))
        else t.(entries := t.entries + [Entry(t.clock, Activity(m))], working := Some(t.clock))
      else if Concludes(m) || HandsOver(place, m) then
        if t.working.Some? then t.(entries := Rewrite(t.entries, t.working.value, own), working := None)
        else t.(entries := t.entries + [Entry(t.clock, own)])
      else if EndsSilently(m) then
        if t.working.Some? then t.(entries := Rewrite(t.entries, t.working.value, Received(m)), working := None) else t
      else if Drops(m) then
        var kept := if t.working.Some? then Without(t.entries, t.working.value) else t.entries;
        t.(entries := kept + [Entry(t.clock, Body(m, NoLink))], working := None)
      else t.(entries := t.entries + [Entry(t.clock, Body(m, OwnLink(m)))]);
    t'.(clock := t.clock + 1)
  }

  lemma DeliverStatus(place: Place, t: Thread, m: Message)
    requires m.kind.Lifecycle? && (t.status.Some? ==> Shows(t.entries, t.status.value))
    ensures Deliver(place, t, m) == Effect(place, t, m)
    ensures m.version.Some? ==>
      var end := RunAlone(m, Start(place, m), t).1; end.Returned? || end == Threw(ProjectionBlocked)
  {
    hide Shows, Rewrite, HandsOff;
    if m.version.Some? {
      RunStep(m, ReadStatus, t);
      if t.status.Some? && t.version < m.version.value {
        var edited := t.(entries := Rewrite(t.entries, t.status.value, Body(m, IncidentLink)));
        RunStep(m, UpdateStatus(t.status.value), t);
        RunStep(m, AdvanceUpdated(t.status.value), edited);
      } else if t.status.None? && !t.ambiguous {
        RunStep(m, CheckAmbiguous, t);
        RunStep(m, PostStatus, t);
        RunStep(m, AdvanceCreated(t.clock), t.(entries := t.entries + [Entry(t.clock, Body(m, IncidentLink))]));
      }
    }
  }

  lemma DeliverWorking(place: Place, t: Thread, m: Message)
    requires !m.kind.Lifecycle? && (t.working.Some? ==> Shows(t.entries, t.working.value))
    ensures Deliver(place, t, m) == Effect(place, t, m)
    ensures RunAlone(m, Start(place, m), t).1.Returned?
  {
    hide RunWith, Shows, Rewrite, Without, HandsOff;
    if Start(place, m).ReadWorking? {
      RunStep(m, ReadWorking, t);
      RunFromNarration(m, t);
      RunEnds(m, Returned(Result(Deleted, None, true)), t, []);
      if t.working.Some? {
        var o := t.working.value;
        if Drops(m) {
          RunFromDelete(m, o, t);
          RunFromPostOwn(m, NoLink, t.(entries := Without(t.entries, o), working := None));
        } else {
          RunFromUpdate(m, o, t);
        }
      }
    }
    RunFromPostOwn(m, NoLink, t);
    RunFromPostOwn(m, IncidentLink, t);
    RunFromPostOwn(m, PostmortemLink, t);
  }

  lemma RenderOneMore(place: Place, msgs: seq<Message>, m: Message)
    ensures Render(place, msgs) == Lay(Slots(place, msgs))
    ensures var more := Slots(place, msgs + [m]);
      Render(place, msgs + [m]) == Lay(more[..|msgs|]) + Laid(|msgs|, more[|msgs|])
  {
    var more := Slots(place, msgs + [m]);
    assert more == more[..|msgs|] + [more[|msgs|]];
    LayAppend(more[..|msgs|], more[|msgs|]);
  }

  /** The entries after one more message are the laid-out slots of the longer list. */
  lemma StatusEntriesAgree(place: Place, msgs: seq<Message>, m: Message, t: Thread)
    requires Agrees(place, msgs, t) && m.kind.Lifecycle?
    ensures Effect(place, t, m).entries == Render(place, msgs + [m])
  {
    hide OpensStatus, Opener, OpenAt, Rewrite, Without, Shows, Lay, Render, EntryAt, TurnAfter, Slots, HandsOff;
    var slots := Slots(place, msgs);
    RenderGrows(place, msgs, m, t);
    RenderOneMore(place, msgs, m);
    LastSlot(place, msgs, m);
    FirstLifecycle(place, msgs, t);
    if t.status.Some? {
      LayEdits(slots, t.status.value, Body(m, IncidentLink));
    }
  }

  /** The stored status tells whether a lifecycle message came before. */
  lemma FirstLifecycle(place: Place, msgs: seq<Message>, t: Thread)
    requires Agrees(place, msgs, t)
    ensures (forall k | 0 <= k < |msgs| :: !msgs[k].kind.Lifecycle?) <==> t.status.None? && !t.ambiguous
  {
    if exists k | 0 <= k < |msgs| :: msgs[k].kind.Lifecycle? {
      var k := FindLifecycle(msgs);
      assert OpensStatus(msgs, k) || msgs[k].version.None?;
    }
  }

  lemma FindLifecycle(msgs: seq<Message>) returns (k: nat)
    requires exists k | 0 <= k < |msgs| :: msgs[k].kind.Lifecycle?
    ensures k < |msgs| && msgs[k].kind.Lifecycle? && forall j | 0 <= j < k :: !msgs[j].kind.Lifecycle?
  {
    k := 0;
    while !msgs[k].kind.Lifecycle?
      invariant k < |msgs| && forall j | 0 <= j < k :: !msgs[j].kind.Lifecycle?
      decreases |msgs| - k
    {
      k := k + 1;
    }
  }

  lemma ClosedEntriesAgree(place: Place, msgs: seq<Message>, m: Message, t: Thread)
    requires Agrees(place, msgs, t) && !m.kind.Lifecycle? && t.working.None?
    ensures Effect(place, t, m).entries == Render(place, msgs + [m])
  {
    hide OpensStatus, Opener, OpenAt, Rewrite, Without, Shows, Lay, Render, EntryAt, TurnAfter, Slots, HandsOff;
    RenderGrows(place, msgs, m, t);
    RenderOneMore(place, msgs, m);
    LastSlot(place, msgs, m);
  }

  lemma OpenEntriesAgree(place: Place, msgs: seq<Message>, m: Message, t: Thread)
    requires Agrees(place, msgs, t) && !m.kind.Lifecycle? && t.working.Some?
    ensures Effect(place, t, m).entries == Render(place, msgs + [m])
  {
    hide OpensStatus, Opener, OpenAt, Rewrite, Without, Shows, Lay, Render, EntryAt, Slots, HandsOff;
    var slots := Slots(place, msgs);
    RenderGrows(place, msgs, m, t);
    RenderOneMore(place, msgs, m);
    LastSlot(place, msgs, m);
    OpenerUnique(place, msgs, t.working.value);
    var o := t.working.value;
    var after := TurnAfter(place, slots[o], m);
    LayEdits(slots, o, if after.Some? then after.value else Activity(m));
    assert slots[o := slots[o]] == slots;
  }

  lemma WorkingAgrees(place: Place, msgs: seq<Message>, m: Message, t: Thread)
    requires Agrees(place, msgs, t)
    ensures var w := Effect(place, t, m).working; var more := msgs + [m];
      && (w.Some? ==> Opener(place, more, w.value))
      && (w.None? ==> !OpenAt(place, more, |more|))
  {
    hide Render;
    var more := msgs + [m];
    assert more[|msgs|] == m && forall k | 0 <= k < |msgs| :: more[k] == msgs[k];
    OpenPrefix(place, msgs, m, |msgs|);
    if t.working.Some? {
      OpenPrefix(place, msgs, m, t.working.value);
      assert Effect(place, t, m).working.None? ==> Closes(place, m);
    }
  }

  lemma OpensStatusPrefix(msgs: seq<Message>, m: Message)
    ensures forall i | 0 <= i < |msgs| :: OpensStatus(msgs + [m], i) == OpensStatus(msgs, i)
    ensures OpensStatus(msgs + [m], |msgs|) <==>
              m.kind.Lifecycle? && m.version.Some? && forall k | 0 <= k < |msgs| :: !msgs[k].kind.Lifecycle?
    ensures Unversioned(msgs + [m]) <==> Unversioned(msgs) || (m.kind.Lifecycle? && m.version.None?)
  {
    var more := msgs + [m];
    assert more[|msgs|] == m && forall k | 0 <= k < |msgs| :: more[k] == msgs[k];
    if Unversioned(msgs) {
      var i :| 0 <= i < |msgs| && msgs[i].kind.Lifecycle? && msgs[i].version.None?;
      assert more[i].kind.Lifecycle? && more[i].version.None?;
    }
  }

  lemma AmbiguityAgrees(place: Place, msgs: seq<Message>, m: Message, t: Thread)
    requires Agrees(place, msgs, t)
    ensures Effect(place, t, m).ambiguous <==> Unversioned(msgs + [m])
  {
    hide Render, Opener, OpenAt, OpensStatus, Rewrite, Without, Unversioned;
    OpensStatusPrefix(msgs, m);
  }

  lemma StatusAgrees(place: Place, msgs: seq<Message>, m: Message, t: Thread)
    requires Agrees(place, msgs, t)
    ensures var t' := Effect(place, t, m); var more := msgs + [m];
      && (t'.status.Some? ==>
            && t'.status.value < |more| && OpensStatus(more, t'.status.value)
            && t'.version == more[Newest(more, t'.status.value, |more|)].version.value)
      && (t'.status.None? ==> forall i | 0 <= i < |more| :: !OpensStatus(more, i))
  {
    hide Render, Opener, OpenAt, OpensStatus, Unversioned, Newest, Rewrite, Without, HandsOff;
    FirstLifecycle(place, msgs, t);
    OpensStatusPrefix(msgs, m);
    assert (msgs + [m])[|msgs|] == m;
    if t.status.Some? {
      StatusIsVersioned(msgs, t.status.value);
      NewestOneMore(msgs, m, t.status.value);
    } else if Versioned(m) {
      NewestOfOne(msgs + [m], |msgs|);
    }
  }

  lemma StatusIsVersioned(msgs: seq<Message>, i: nat)
    requires i < |msgs| && OpensStatus(msgs, i)
    ensures Versioned(msgs[i])
  {
  }

  /** One more message keeps the replayed thread and the rendering in agreement. */
  lemma DeliverKeeps(place: Place, msgs: seq<Message>, m: Message, t: Thread)
    requires Agrees(place, msgs, t)
    ensures Agrees(place, msgs + [m], Deliver(place, t, m))
  {
    hide Opener, OpenAt, OpensStatus, Render, Unversioned, Deliver;
    RenderGrows(place, msgs, m, t);
    StatusAgrees(place, msgs, m, t);
    AmbiguityAgrees(place, msgs, m, t);
    WorkingAgrees(place, msgs, m, t);
    if m.kind.Lifecycle? {
      DeliverStatus(place, t, m);
      StatusEntriesAgree(place, msgs, m, t);
    } else {
      DeliverWorking(place, t, m);
      if t.working.Some? {
        OpenEntriesAgree(place, msgs, m, t);
      } else {
        ClosedEntriesAgree(place, msgs, m, t);
      }
    }
  }

  lemma EmptyAgrees(place: Place)
    ensures Agrees(place, [], EMPTY)
  {
    assert Slots(place, []) == [];
  }

  lemma {:induction false} ReplayAgrees(place: Place, msgs: seq<Message>)
    ensures Agrees(place, msgs, Replay(place, msgs))
    decreases |msgs|
  {
    hide Agrees, Deliver;
    if msgs == [] {
      EmptyAgrees(place);
    } else {
      var n := |msgs| - 1;
      ReplayAgrees(place, msgs[..n]);
      DeliverKeeps(place, msgs[..n], msgs[n], Replay(place, msgs[..n]));
      assert msgs[..n] + [msgs[n]] == msgs;
    }
  }

  // ---------------------------------------------------------------------------------------------
  // Results

  /**
   For every list of messages the thread is the whole-list rendering, a working post is stored exactly
   while a turn is open, and it is the post of the message that opened the turn.
   */
  lemma ThreadIsRendering(place: Place, msgs: seq<Message>)
    ensures Replay(place, msgs).entries == Render(place, msgs)
    ensures Replay(place, msgs).working.Some? <==> OpenAt(place, msgs, |msgs|)
    ensures Replay(place, msgs).working.Some? ==> Opener(place, msgs, Replay(place, msgs).working.value)
  {
    ReplayAgrees(place, msgs);
    var t := Replay(place, msgs);
    if t.working.Some? {
      OpenerUnique(place, msgs, t.working.value);
    }
  }

  /** What a delivery leaves, by who wrote the message and what kind it is. */
  function ByKind(place: Place, t: Thread, m: Message): Thread {
    var own := t.entries + [Entry(t.clock, Body(m, NoLink))];
    var linked := t.entries + [Entry(t.clock, Body(m, IncidentLink))];
    var folded := if t.working.Some? then Rewrite(t.entries, t.working.value, Body(m, IncidentLink)) else linked;
    var t' :=
      match m.kind
      case Lifecycle =>
        if m.version.None? then t.(ambiguous := true)
        else if t.status.Some? && t.version < m.version.value then
          t.(entries := Rewrite(t.entries, t.status.value, Body(m, IncidentLink)), version := m.version.value)
        else if t.status.None? && !t.ambiguous then t.(entries := linked, status := Some(t.clock), version := m.version.value)
        else t
      case Approval => t.(entries := own)
      case Text =>
        if m.author.Agent? then Narrated(t, m) else t.(entries := own)
      case ToolStep =>
        if m.author.Agent? then Narrated(t, m) else t.(entries := own)
      case Reply =>
        if m.author.Agent? then t.(entries := folded, working := None) else t.(entries := own)
      case Finding =>
        if m.author.Agent? then t.(entries := folded, working := None)
        else
          var kept := if t.working.Some? then Without(t.entries, t.working.value) else t.entries;
          t.(entries := kept + [Entry(t.clock, Body(m, NoLink))], working := None)
      case Postmortem =>
        if m.author.Agent? then Silenced(t, m) else t.(entries := t.entries + [Entry(t.clock, Body(m, PostmortemLink))])
      case Relationship =>
        if m.author.Agent? then Silenced(t, m)
        else if HandsOff(place, m) then t.(entries := folded, working := None)
        else t.(entries := linked)
      case _ =>
        if m.author.Agent? then Silenced(t, m) else t.(entries := own);
    t'.(clock := t.clock + 1)
  }

  /** The working post shows the latest step of the agent; the first step opens it. */
  function Narrated(t: Thread, m: Message): Thread {
    if t.working.Some? then t.(entries := Rewrite(t.entries, t.working.value, Activity(m)))
    else t.(entries := t.entries + [Entry(t.clock, Activity(m))], working := Some(t.clock))
  }

  /** An open turn ends with an acknowledgement only. */
  function Silenced(t: Thread, m: Message): Thread {
    if t.working.Some? then t.(entries := Rewrite(t.entries, t.working.value, Received(m)), working := None) else t
  }

  /** The projection of every author's every kind of message, approvals and hand-offs included. */
  lemma DeliverByKind(place: Place, msgs: seq<Message>, m: Message)
    ensures Replay(place, msgs + [m]) == ByKind(place, Replay(place, msgs), m)
  {
    hide Rewrite, Without, HandsOff, Replay, Shows, Render, Deliver, Effect, ByKind, RunAlone;
    var t := Replay(place, msgs);
    assert Replay(place, msgs + [m]) == Deliver(place, t, m) by {
      OneMoreDelivery(place, msgs, m);
    }
    ReplayAgrees(place, msgs);
    PostsAreThere(place, msgs, t);
    if m.kind.Lifecycle? {
      DeliverStatus(place, t, m);
    } else {
      DeliverWorking(place, t, m);
    }
    EffectByKind(place, t, m);
  }

  lemma EffectByKind(place: Place, t: Thread, m: Message)
    ensures Effect(place, t, m) == ByKind(place, t, m)
  {
    hide Rewrite, Without, HandsOff;
  }

  lemma OneMoreDelivery(place: Place, msgs: seq<Message>, m: Message)
    ensures Replay(place, msgs + [m]) == Deliver(place, Replay(place, msgs), m)
  {
    assert (msgs + [m])[..|msgs|] == msgs;
  }

  /** An origin in this channel hands the conversation off exactly if it names another thread. */
  lemma HandsOffExactly(place: Place, m: Message, thread: string)
    requires m.origin == Some("correlated-source:" + place.surface + ":" + place.channel + ":" + thread)
    ensures HandsOff(place, m) <==> thread != place.thread
  {
    var prefix := "correlated-source:" + place.surface + ":" + place.channel + ":";
    assert m.origin.value == prefix + thread && (prefix + thread)[|prefix|..] == thread;
    assert (prefix + place.thread)[|prefix|..] == place.thread;
  }

  lemma HandsOffOnlyHere(place: Place, m: Message)
    requires HandsOff(place, m)
    ensures m.origin.Some?
    ensures exists thread ::
      m.origin.value == "correlated-source:" + place.surface + ":" + place.channel + ":" + thread && thread != place.thread
  {
    var prefix := "correlated-source:" + place.surface + ":" + place.channel + ":";
    var thread := m.origin.value[|prefix|..];
    assert m.origin.value == prefix + thread;
  }

  /** A message's own words end up in the thread only in a post that shows that message. */
  predicate Speaks(entries: seq<Entry>, m: Message) {
    exists i | 0 <= i < |entries| :: entries[i].shown.Body? && entries[i].shown.msg == m
  }

  predicate SlotSays(slot: Option<Shown>, m: Message) {
    slot.Some? && slot.value.Body? && slot.value.msg == m
  }

  lemma {:induction false} LaySays(slots: seq<Option<Shown>>, m: Message)
    ensures Speaks(Lay(slots), m) <==> exists i | 0 <= i < |slots| :: SlotSays(slots[i], m)
    decreases |slots|
  {
    if slots != [] {
      var n := |slots| - 1;
      LaySays(slots[..n], m);
      if SlotSays(slots[n], m) {
        assert SlotSays(Some(Lay(slots)[|Lay(slots)| - 1].shown), m);
      }
      if Speaks(Lay(slots[..n]), m) {
        var k :| 0 <= k < |Lay(slots[..n])| && SlotSays(Some(Lay(slots[..n])[k].shown), m);
        assert SlotSays(Some(Lay(slots)[k].shown), m);
        var i :| 0 <= i < n && SlotSays(slots[..n][i], m);
        assert SlotSays(slots[i], m);
      }
    }
  }

  /** No post shows the words of a message that ends a turn silently. */
  lemma SilentIsNeverShown(place: Place, msgs: seq<Message>, i: nat, m: Message)
    requires i < |msgs| && EndsSilently(m)
    ensures !SlotSays(EntryAt(place, msgs, i), m)
  {
  }

  /**
   A message that is not a narration or a status update reaches the thread in its own words, when
   delivered, exactly if it does not end an agent turn silently: an agent's clarification request, its
   re-ask after a degraded run, and its postmortem or relationship notice never do.
   */
  lemma SpeaksUnlessSilent(place: Place, msgs: seq<Message>, m: Message)
    requires !m.kind.Lifecycle? && !Narrates(m)
    ensures Speaks(Replay(place, msgs + [m]).entries, m) <==> !EndsSilently(m)
  {
    var more := msgs + [m];
    var t, slots := Replay(place, msgs), Slots(place, more);
    ReplayAgrees(place, msgs);
    ReplayAgrees(place, more);
    LaySays(slots, m);
    if EndsSilently(m) {
      forall i | 0 <= i < |slots| ensures !SlotSays(slots[i], m) {
        SilentIsNeverShown(place, more, i, m);
      }
    } else {
      LastSlot(place, msgs, m);
      SlotsGrow(place, msgs, m, t);
      assert SlotSays(slots[if t.working.Some? && !slots[|msgs|].Some? then t.working.value else |msgs|], m);
    }
  }
}
