/**
 One bound conversation whose messages are projected one at a time. Each port call may meet a mishap;
 `RunAlone`, `Deliver` and `Replay` are the runs that meet none.
 */
module Conversation {
  import opened Prelude
  import opened Projection

  datatype Entry = Entry(post: nat, shown: Shown)

  /**
   The Slack thread, and what the platform stores about it. `clock` counts delivered messages and
   stamps the post a message creates; `ambiguous` says that a lifecycle delivery ended uncertain.
   */
  datatype Thread = Thread(
    entries: seq<Entry>, working: Option<nat>, status: Option<nat>, version: int, ambiguous: bool, clock: nat)

  const EMPTY := Thread([], None, None, 0, false, 0)

  function Rewrite(entries: seq<Entry>, post: nat, shown: Shown): (r: seq<Entry>)
    ensures |r| == |entries|
  {
    if entries == [] then []
    else [if entries[0].post == post then Entry(post, shown) else entries[0]] + Rewrite(entries[1..], post, shown)
  }

  function Without(entries: seq<Entry>, post: nat): seq<Entry> {
    if entries == [] then []
    else (if entries[0].post == post then [] else [entries[0]]) + Without(entries[1..], post)
  }

  predicate Shows(entries: seq<Entry>, post: nat) {
    exists i | 0 <= i < |entries| :: entries[i].post == post
  }

  lemma {:induction false} RewriteOneMore(entries: seq<Entry>, post: nat, shown: Shown, i: nat)
    requires i < |entries|
    ensures Rewrite(entries[..i + 1], post, shown) ==
              Rewrite(entries[..i], post, shown) + [if entries[i].post == post then Entry(post, shown) else entries[i]]
    decreases i
  {
    if i > 0 {
      RewriteOneMore(entries[1..], post, shown, i - 1);
      assert entries[..i + 1][1..] == entries[1..][..i] && entries[..i][1..] == entries[1..][..i - 1];
    }
  }

  lemma {:induction false} WithoutOneMore(entries: seq<Entry>, post: nat, i: nat)
    requires i < |entries|
    ensures Without(entries[..i + 1], post) ==
              Without(entries[..i], post) + (if entries[i].post == post then [] else [entries[i]])
    decreases i
  {
    if i > 0 {
      WithoutOneMore(entries[1..], post, i - 1);
      assert entries[..i + 1][1..] == entries[1..][..i] && entries[..i][1..] == entries[1..][..i - 1];
    }
  }

  lemma ShowsOneMore(entries: seq<Entry>, post: nat, i: nat)
    requires i < |entries|
    ensures Shows(entries[..i + 1], post) <==> Shows(entries[..i], post) || entries[i].post == post
  {
    assert entries[..i + 1] == entries[..i] + [entries[i]];
    if Shows(entries[..i], post) {
      var j :| 0 <= j < i && entries[..i][j].post == post;
      assert entries[..i + 1][j].post == post;
    }
    if entries[i].post == post {
      assert entries[..i + 1][i].post == post;
    }
  }

  /** A port call that meets no fault. Slack refuses to edit a missing post and tolerates deleting one. */
  function Serve(t: Thread, call: Call): (Thread, Answer) {
    match call
    case GetStatusPost => (t, StatusPost(t.status, t.version))
    case HasAmbiguousCreation => (t, Flag(t.ambiguous))
    case GetWorkingPost => (t, WorkingPost(t.working))
    case Post(shown) => (t.(entries := t.entries + [Entry(t.clock, shown)]), Stamp(t.clock))
    case Update(post, shown) =>
      if Shows(t.entries, post) then (t.(entries := Rewrite(t.entries, post, shown)), Done) else (t, SlackError(Refused))
    case Delete(post) => (t.(entries := Without(t.entries, post)), Done)
    case SetWorkingPost(post) => (t.(working := Some(post)), Done)
    case ClearWorkingPost => (t.(working := None), Done)
    case AdvanceStatusPost(post, version) =>
      if t.status.None? || t.version < version then (t.(status := Some(post), version := version), Flag(true))
      else (t, Flag(false))
  }

  /**
   What a port call may meet. `Unstamped`: Slack accepts a post and returns no timestamp. `Breaks`: the
   call throws, before or after it took effect, and Slack's answer is then ambiguous. `Outdated`: the
   binding was removed, or reassigned since the delivery was queued.
   */
  datatype Mishap = Fine | Refuses | RateLimits | Unstamped | Breaks(landed: bool) | Outdated

  predicate TakesEffect(call: Call, mishap: Mishap) {
    match mishap
    case Fine => true
    case Unstamped => true
    case Breaks(landed) => landed
    case Outdated => !call.AdvanceStatusPost?
    case _ => !IsSlackCall(call)
  }

  /** What the caller learns, given the answer of a call that met no mishap. */
  function Reported(call: Call, mishap: Mishap, answer: Answer): Answer {
    match mishap
    case Refuses => if IsSlackCall(call) then SlackError(Refused) else answer
    case RateLimits => if IsSlackCall(call) then SlackError(Retryable) else answer
    case Unstamped => if call.Post? then SlackError(Refused) else answer
    case Breaks(_) => if IsSlackCall(call) then SlackError(Unclear) else StoreError
    case Outdated => if call.AdvanceStatusPost? then Flag(false) else if call.GetStatusPost? then NoBinding else answer
    case Fine => answer
  }

  function Meet(t: Thread, call: Call, mishap: Mishap): (Thread, Answer) {
    var (t', answer) := Serve(t, call);
    (if TakesEffect(call, mishap) then t' else t, Reported(call, mishap, answer))
  }

  /** The mishap of the next call, and those of the calls after it. */
  function Head(mishaps: seq<Mishap>): Mishap {
    if mishaps == [] then Fine else mishaps[0]
  }

  function Tail(mishaps: seq<Mishap>): seq<Mishap> {
    if mishaps == [] then [] else mishaps[1..]
  }

  function AwaitsLeft(p: Phase): nat {
    match p
    case ReadStatus => 4
    case CheckAmbiguous => 3
    case PostStatus => 2
    case AdvanceCreated(_) => 1
    case UpdateStatus(_) => 2
    case AdvanceUpdated(_) => 1
    case ReadWorking => 4
    case UpdateWorking(_) => 2
    case ClearUpdated(_) => 1
    case DeleteWorking(_) => 3
    case ClearDeleted => 2
    case PostNarration => 2
    case SetWorking(_) => 1
    case PostOwn(_) => 1
    case _ => 0
  }

  /** The projection run from one await to its end with nothing in between. */
  function RunWith(m: Message, p: Phase, t: Thread, mishaps: seq<Mishap>): (Thread, Phase)
    requires p.Returned? || p.Threw? || Fits(m, p)
    decreases AwaitsLeft(p)
  {
    if p.Returned? || p.Threw? then (t, p)
    else
      var (t', answer) := Meet(t, CallOf(m, p), Head(mishaps));
      RunWith(m, Resume(m, p, answer), t', Tail(mishaps))
  }

  lemma RunsOn(m: Message, p: Phase, t: Thread, mishaps: seq<Mishap>)
    requires Fits(m, p)
    ensures var (t', answer) := Meet(t, CallOf(m, p), Head(mishaps));
            RunWith(m, p, t, mishaps) == RunWith(m, Resume(m, p, answer), t', Tail(mishaps))
  {
  }

  lemma RunEnds(m: Message, p: Phase, t: Thread, mishaps: seq<Mishap>)
    requires p.Returned? || p.Threw?
    ensures RunWith(m, p, t, mishaps) == (t, p)
  {
  }

  lemma {:induction false} RunKeepsClock(m: Message, p: Phase, t: Thread, mishaps: seq<Mishap>)
    requires p.Returned? || p.Threw? || Fits(m, p)
    ensures var t' := RunWith(m, p, t, mishaps).0; t'.clock == t.clock && t'.ambiguous == t.ambiguous
    decreases AwaitsLeft(p)
  {
    if !p.Returned? && !p.Threw? {
      var (t', answer) := Meet(t, CallOf(m, p), Head(mishaps));
      RunKeepsClock(m, Resume(m, p, answer), t', Tail(mishaps));
    }
  }

  function RunAlone(m: Message, p: Phase, t: Thread): (Thread, Phase)
    requires p.Returned? || p.Threw? || Fits(m, p)
  {
    RunWith(m, p, t, [])
  }

  lemma RunStep(m: Message, p: Phase, t: Thread)
    requires Fits(m, p)
    ensures var (t', answer) := Serve(t, CallOf(m, p)); RunAlone(m, p, t) == RunAlone(m, Resume(m, p, answer), t')
  {
  }

  lemma RunFromPostOwn(m: Message, link: Link, t: Thread)
    requires !m.kind.Lifecycle?
    ensures RunAlone(m, PostOwn(link), t) ==
              (t.(entries := t.entries + [Entry(t.clock, Body(m, link))]),
               Returned(Result(if Standalone(m) && m.kind.Finding? then Composite else Posted, Some(t.clock), false)))
  {
  }

  lemma RunFromNarration(m: Message, t: Thread)
    requires !m.kind.Lifecycle?
    ensures RunAlone(m, PostNarration, t) ==
              (t.(entries := t.entries + [Entry(t.clock, Activity(m))], working := Some(t.clock)),
               Returned(Result(Posted, Some(t.clock), false)))
  {
    RunStep(m, PostNarration, t);
    RunStep(m, SetWorking(t.clock), t.(entries := t.entries + [Entry(t.clock, Activity(m))]));
  }

  lemma RunFromUpdate(m: Message, post: nat, t: Thread)
    requires !m.kind.Lifecycle?
    ensures RunAlone(m, UpdateWorking(post), t) ==
              if Shows(t.entries, post)
              then (t.(entries := Rewrite(t.entries, post, Replacement(m)), working := if Narrates(m) then t.working else None),
                    Returned(Result(Updated, Some(post), false)))
              else (t, Threw(SlackFailed(Refused)))
  {
    hide Shows, Rewrite, Replacement;
    RunStep(m, UpdateWorking(post), t);
    RunStep(m, ClearUpdated(post), t.(entries := Rewrite(t.entries, post, Replacement(m))));
  }

  lemma RunFromDelete(m: Message, post: nat, t: Thread)
    requires Standalone(m) && m.kind.Finding?
    ensures RunAlone(m, DeleteWorking(post), t) ==
              RunAlone(m, PostOwn(NoLink), t.(entries := Without(t.entries, post), working := None))
  {
    hide Without;
    RunStep(m, DeleteWorking(post), t);
    RunStep(m, ClearDeleted, t.(entries := Without(t.entries, post)));
  }

  /** One delivery. A lifecycle delivery whose outcome is not known is recorded as uncertain. */
  function DeliverWith(place: Place, t: Thread, m: Message, mishaps: seq<Mishap>): Thread {
    var (t', end) := RunWith(m, Start(place, m), t, mishaps);
    t'.(clock := t.clock + 1, ambiguous := t.ambiguous || (m.kind.Lifecycle? && Unresolved(end)))
  }

  predicate Unresolved(end: Phase) {
    end == Threw(Unexpected) || end == Threw(SlackFailed(Unclear))
  }

  function Deliver(place: Place, t: Thread, m: Message): Thread {
    DeliverWith(place, t, m, [])
  }

  function Replay(place: Place, msgs: seq<Message>): Thread {
    if msgs == [] then EMPTY
    else var n := |msgs| - 1; Deliver(place, Replay(place, msgs[..n]), msgs[n])
  }

  // ---------------------------------------------------------------------------------------------
  // The imperative projection

  /** The error an unexpected answer is thrown as. */
  function Raised(answer: Answer): Phase {
    if answer.SlackError? then Threw(SlackFailed(answer.failure)) else Threw(Unexpected)
  }

  /** `applyToSurface` over the ports of one binding. `mishaps` is what the calls to come will meet. */
  class BoundThread {
    const place: Place
    var entries: seq<Entry>
    var working: Option<nat>
    var status: Option<nat>
    var version: int
    var ambiguous: bool
    var clock: nat
    var mishaps: seq<Mishap>

    constructor (place: Place, mishaps: seq<Mishap>)
      ensures this.place == place && Snapshot() == EMPTY && this.mishaps == mishaps
    {
      this.place, this.mishaps := place, mishaps;
      entries, working, status, version, ambiguous, clock := [], None, None, 0, false, 0;
    }

    function Snapshot(): Thread
      reads this
    {
      Thread(entries, working, status, version, ambiguous, clock)
    }

    method Post(shown: Shown) returns (post: nat)
      modifies this`entries
      ensures (Snapshot(), Stamp(post)) == Serve(old(Snapshot()), Call.Post(shown))
    {
      entries := entries + [Entry(clock, shown)];
      post := clock;
    }

    /** Slack answers `message_not_found`, an error, when the post is not there. */
    method Update(post: nat, shown: Shown) returns (ok: bool)
      modifies this`entries
      ensures (Snapshot(), if ok then Done else SlackError(Refused)) == Serve(old(Snapshot()), Call.Update(post, shown))
    {
      ok := false;
      var kept := [];
      for i := 0 to |entries|
        invariant entries == old(entries)
        invariant ok <==> Shows(entries[..i], post)
        invariant kept == Rewrite(entries[..i], post, shown)
      {
        ShowsOneMore(entries, post, i);
        RewriteOneMore(entries, post, shown, i);
        if entries[i].post == post {
          kept, ok := kept + [Entry(post, shown)], true;
        } else {
          kept := kept + [entries[i]];
        }
      }
      assert entries[..|entries|] == entries;
      if ok {
        entries := kept;
      }
    }

    method Delete(post: nat)
      modifies this`entries
      ensures (Snapshot(), Done) == Serve(old(Snapshot()), Call.Delete(post))
    {
      var kept := [];
      for i := 0 to |entries|
        invariant entries == old(entries)
        invariant kept == Without(entries[..i], post)
      {
        WithoutOneMore(entries, post, i);
        if entries[i].post != post {
          kept := kept + [entries[i]];
        }
      }
      assert entries[..|entries|] == entries;
      entries := kept;
    }

    method AdvanceStatusPost(post: nat, v: int) returns (advanced: bool)
      modifies this`status, this`version
      ensures (Snapshot(), Flag(advanced)) == Serve(old(Snapshot()), Call.AdvanceStatusPost(post, v))
    {
      advanced := status.None? || version < v;
      if advanced {
        status, version := Some(post), v;
      }
    }

    /** The effect of a call that takes effect. */
    method Perform(call: Call) returns (answer: Answer)
      modifies this`entries, this`working, this`status, this`version
      ensures (Snapshot(), answer) == Serve(old(Snapshot()), call)
    {
      match call
      case GetStatusPost => answer := StatusPost(status, version);
      case HasAmbiguousCreation => answer := Flag(ambiguous);
      case GetWorkingPost => answer := WorkingPost(working);
      case Post(shown) =>
        var post := Post(shown);
        answer := Stamp(post);
      case Update(post, shown) =>
        var ok := Update(post, shown);
        answer := if ok then Done else SlackError(Refused);
      case Delete(post) =>
        Delete(post);
        answer := Done;
      case SetWorkingPost(post) =>
        working := Some(post);
        answer := Done;
      case ClearWorkingPost =>
        working := None;
        answer := Done;
      case AdvanceStatusPost(post, v) =>
        var advanced := AdvanceStatusPost(post, v);
        answer := Flag(advanced);
    }

    /** One port call and whatever it meets. */
    method Do(call: Call) returns (answer: Answer)
      modifies this
      ensures (Snapshot(), answer) == Meet(old(Snapshot()), call, Head(old(mishaps)))
      ensures mishaps == Tail(old(mishaps))
    {
      hide Serve;
      var mishap := Head(mishaps);
      mishaps := Tail(mishaps);
      if TakesEffect(call, mishap) {
        answer := Perform(call);
        answer := Reported(call, mishap, answer);
      } else {
        answer := Reported(call, mishap, Done);
      }
    }

    /** Written as the source writes it; equal to the interleavable phases run without interference. */
    method ApplyToSurface(m: Message) returns (end: Phase)
      modifies this
      ensures (Snapshot(), end) == RunWith(m, Start(place, m), old(Snapshot()), old(mishaps))
    {
      if m.kind.Lifecycle? {
        end := ApplyLifecycle(m);
      } else if Standalone(m) {
        end := ApplyStandalone(m);
      } else {
        end := ApplyAgent(m);
      }
    }

    method ApplyLifecycle(m: Message) returns (end: Phase)
      requires m.kind.Lifecycle?
      modifies this
      ensures (Snapshot(), end) == RunWith(m, Start(place, m), old(Snapshot()), old(mishaps))
    {
      hide RunWith, Meet;
      if m.version.None? {
        RunEnds(m, Threw(Unexpected), Snapshot(), mishaps);
        return Threw(Unexpected);
      }
      RunsOn(m, ReadStatus, Snapshot(), mishaps);
      var current := Do(GetStatusPost);
      if !current.StatusPost? {
        end := Raised(current);
        RunEnds(m, end, Snapshot(), mishaps);
        return;
      }
      if current.current.Some? && current.version >= m.version.value {
        end := Returned(Result(Updated, current.current, true));
        RunEnds(m, end, Snapshot(), mishaps);
        return;
      }
      if current.current.Some? {
        end := EditStatus(m, current.current.value);
      } else {
        end := CreateStatus(m);
      }
    }

    method EditStatus(m: Message, post: nat) returns (end: Phase)
      requires m.kind.Lifecycle? && m.version.Some?
      modifies this
      ensures (Snapshot(), end) == RunWith(m, UpdateStatus(post), old(Snapshot()), old(mishaps))
    {
      hide RunWith, Meet;
      RunsOn(m, UpdateStatus(post), Snapshot(), mishaps);
      var updated := Do(Call.Update(post, Body(m, IncidentLink)));
      if !updated.Done? {
        end := Raised(updated);
        RunEnds(m, end, Snapshot(), mishaps);
        return;
      }
      end := Advance(m, post, AdvanceUpdated(post), Updated);
    }

    method CreateStatus(m: Message) returns (end: Phase)
      requires m.kind.Lifecycle? && m.version.Some?
      modifies this
      ensures (Snapshot(), end) == RunWith(m, CheckAmbiguous, old(Snapshot()), old(mishaps))
    {
      hide RunWith, Meet;
      RunsOn(m, CheckAmbiguous, Snapshot(), mishaps);
      var check := Do(HasAmbiguousCreation);
      if !check.Flag? || check.value {
        end := if check.Flag? then Threw(ProjectionBlocked) else Raised(check);
        RunEnds(m, end, Snapshot(), mishaps);
        return;
      }
      RunsOn(m, PostStatus, Snapshot(), mishaps);
      var posted := Do(Call.Post(Body(m, IncidentLink)));
      if !posted.Stamp? {
        end := Raised(posted);
        RunEnds(m, end, Snapshot(), mishaps);
        return;
      }
      end := Advance(m, posted.post, AdvanceCreated(posted.post), Posted);
    }

    /** The store accepts the post and version, or the projection lost its fence. */
    method Advance(m: Message, post: nat, ghost phase: Phase, operation: Operation) returns (end: Phase)
      requires m.kind.Lifecycle? && m.version.Some?
      requires phase == (if operation.Posted? then AdvanceCreated(post) else AdvanceUpdated(post))
      requires operation.Posted? || operation.Updated?
      modifies this
      ensures (Snapshot(), end) == RunWith(m, phase, old(Snapshot()), old(mishaps))
    {
      hide RunWith, Meet;
      RunsOn(m, phase, Snapshot(), mishaps);
      var advanced := Do(Call.AdvanceStatusPost(post, m.version.value));
      end := if !advanced.Flag? then Raised(advanced)
             else if advanced.value then Returned(Result(operation, Some(post), false)) else Threw(Unexpected);
      RunEnds(m, end, Snapshot(), mishaps);
    }

    method ApplyStandalone(m: Message) returns (end: Phase)
      requires !m.kind.Lifecycle? && Standalone(m)
      modifies this
      ensures (Snapshot(), end) == RunWith(m, Start(place, m), old(Snapshot()), old(mishaps))
    {
      hide RunWith, Meet;
      if m.kind.Postmortem? {
        end := PostOwnBody(m, PostmortemLink);
        return;
      }
      if m.kind.Relationship? {
        if HandsOff(place, m) {
          RunsOn(m, ReadWorking, Snapshot(), mishaps);
          var dangling := Do(GetWorkingPost);
          if !dangling.WorkingPost? {
            end := Raised(dangling);
            RunEnds(m, end, Snapshot(), mishaps);
            return;
          }
          if dangling.current.Some? {
            end := ReplaceWorking(m, dangling.current.value, Body(m, IncidentLink));
            return;
          }
        }
        end := PostOwnBody(m, IncidentLink);
        return;
      }
      if m.kind.Finding? {
        end := DropWorking(m);
      } else {
        end := PostOwnBody(m, NoLink);
      }
    }

    /** A post of the message's own. */
    method PostOwnBody(m: Message, link: Link) returns (end: Phase)
      requires !m.kind.Lifecycle?
      modifies this
      ensures (Snapshot(), end) == RunWith(m, PostOwn(link), old(Snapshot()), old(mishaps))
    {
      hide RunWith, Meet;
      RunsOn(m, PostOwn(link), Snapshot(), mishaps);
      var posted := Do(Call.Post(Body(m, link)));
      end := if !posted.Stamp? then Raised(posted)
             else Returned(Result(if Standalone(m) && m.kind.Finding? then Composite else Posted, Some(posted.post), false));
      RunEnds(m, end, Snapshot(), mishaps);
    }

    /** A system finding drops the working post, record included, before it posts. */
    method DropWorking(m: Message) returns (end: Phase)
      requires !m.kind.Lifecycle? && Standalone(m) && m.kind.Finding?
      modifies this
      ensures (Snapshot(), end) == RunWith(m, ReadWorking, old(Snapshot()), old(mishaps))
    {
      hide RunWith, Meet;
      RunsOn(m, ReadWorking, Snapshot(), mishaps);
      var dangling := Do(GetWorkingPost);
      if !dangling.WorkingPost? {
        end := Raised(dangling);
        RunEnds(m, end, Snapshot(), mishaps);
        return;
      }
      if dangling.current.Some? {
        var post := dangling.current.value;
        RunsOn(m, DeleteWorking(post), Snapshot(), mishaps);
        var deleted := Do(Call.Delete(post));
        if deleted.Done? {
          RunsOn(m, ClearDeleted, Snapshot(), mishaps);
          deleted := Do(ClearWorkingPost);
        }
        if !deleted.Done? {
          end := Raised(deleted);
          RunEnds(m, end, Snapshot(), mishaps);
          return;
        }
      }
      end := PostOwnBody(m, NoLink);
    }

    /** The working post takes the message's content, and a message that ends the turn clears its record. */
    method ReplaceWorking(m: Message, post: nat, shown: Shown) returns (end: Phase)
      requires !m.kind.Lifecycle? && shown == Replacement(m)
      modifies this
      ensures (Snapshot(), end) == RunWith(m, UpdateWorking(post), old(Snapshot()), old(mishaps))
    {
      hide RunWith, Meet, Replacement;
      RunsOn(m, UpdateWorking(post), Snapshot(), mishaps);
      var answer := Do(Call.Update(post, shown));
      if answer.Done? && !Narrates(m) {
        RunsOn(m, ClearUpdated(post), Snapshot(), mishaps);
        answer := Do(ClearWorkingPost);
      }
      end := if answer.Done? then Returned(Result(Updated, Some(post), false)) else Raised(answer);
      RunEnds(m, end, Snapshot(), mishaps);
    }

    method ApplyAgent(m: Message) returns (end: Phase)
      requires !m.kind.Lifecycle? && !Standalone(m)
      modifies this
      ensures (Snapshot(), end) == RunWith(m, Start(place, m), old(Snapshot()), old(mishaps))
    {
      hide RunWith, Meet;
      RunsOn(m, ReadWorking, Snapshot(), mishaps);
      var read := Do(GetWorkingPost);
      if !read.WorkingPost? {
        end := Raised(read);
        RunEnds(m, end, Snapshot(), mishaps);
        return;
      }
      if m.kind.Text? || m.kind.ToolStep? {
        if read.current.Some? {
          end := ReplaceWorking(m, read.current.value, Activity(m));
        } else {
          end := Narrate(m);
        }
      } else if m.kind.Reply? || m.kind.Finding? {
        if read.current.Some? {
          end := ReplaceWorking(m, read.current.value, Body(m, IncidentLink));
        } else {
          end := PostOwnBody(m, IncidentLink);
        }
      } else if read.current.Some? {
        end := ReplaceWorking(m, read.current.value, Received(m));
      } else {
        end := Returned(Result(Deleted, None, true));
        RunEnds(m, end, Snapshot(), mishaps);
      }
    }

    /** The first narration of a turn opens its working post. */
    method Narrate(m: Message) returns (end: Phase)
      requires !m.kind.Lifecycle?
      modifies this
      ensures (Snapshot(), end) == RunWith(m, PostNarration, old(Snapshot()), old(mishaps))
    {
      hide RunWith, Meet;
      RunsOn(m, PostNarration, Snapshot(), mishaps);
      var posted := Do(Call.Post(Activity(m)));
      if !posted.Stamp? {
        end := Raised(posted);
        RunEnds(m, end, Snapshot(), mishaps);
        return;
      }
      RunsOn(m, SetWorking(posted.post), Snapshot(), mishaps);
      var stored := Do(SetWorkingPost(posted.post));
      end := if stored.Done? then Returned(Result(Posted, Some(posted.post), false)) else Raised(stored);
      RunEnds(m, end, Snapshot(), mishaps);
    }

    method Handle(m: Message)
      modifies this
      ensures Snapshot() == DeliverWith(place, old(Snapshot()), m, old(mishaps))
    {
      RunKeepsClock(m, Start(place, m), Snapshot(), mishaps);
      var end := ApplyToSurface(m);
      hide RunWith, Start;
      if m.kind.Lifecycle? && Unresolved(end) {
        ambiguous := true;
      }
      clock := clock + 1;
    }
  }
}
