/** What a delivery reports to have done, against what it did. */
module Receipts {
  import opened Prelude
  import opened Projection
  import opened Deliveries
  import opened LeaseStore
  import opened DeliveryProtocol
  import opened Conversation
  import A = AtMostOnce
  import L = LeaseSpans
  import R = ThreadRendering
  import opened SerialProjection

  // ---------------------------------------------------------------------------------------------
  // One projection, whatever its calls meet

  /** The recorded status post is at least as new as the message. */
  predicate IsStale(t: Thread, m: Message) {
    m.kind.Lifecycle? && m.version.Some? && t.status.Some? && t.version >= m.version.value
  }

  /** The message ends an agent turn silently, and no turn is open. */
  predicate EndsNothing(t: Thread, m: Message) {
    R.EndsSilently(m) && t.working.None?
  }

  /** The post the message edits, if there is one. */
  function Edited(place: Place, t: Thread, m: Message): Option<nat> {
    if m.kind.Lifecycle? then t.status
    else if Narrates(m) || Concludes(m) || R.EndsSilently(m) || R.HandsOver(place, m) then t.working
    else None
  }

  /** What the message shows in a post of its own, or in the post it edits. */
  function ShownAs(place: Place, m: Message): Shown {
    if m.kind.Lifecycle? then Body(m, IncidentLink)
    else if Narrates(m) then Activity(m)
    else if R.EndsSilently(m) then Received(m)
    else if Concludes(m) || R.HandsOver(place, m) then Body(m, IncidentLink)
    else Body(m, R.OwnLink(m))
  }

  /** A receipt tells the truth about what became of the thread. */
  ghost predicate IsTrue(place: Place, t: Thread, m: Message, t': Thread, result: Result) {
    && (result.skipped <==> IsStale(t, m) || EndsNothing(t, m))
    && (result.skipped ==> t' == t && result.remote == (if IsStale(t, m) then t.status else None))
    && (result.operation.Deleted? <==> EndsNothing(t, m))
    && (result.operation.Composite? <==> R.Drops(m))
    && (result.operation.Updated? <==> Edited(place, t, m).Some?)
    && (!result.skipped && result.operation.Updated? ==>
          && result.remote == Edited(place, t, m) && Shows(t.entries, result.remote.value)
          && t'.entries == Rewrite(t.entries, result.remote.value, ShownAs(place, m)))
    && (result.operation.Posted? || result.operation.Composite? ==>
          && result.remote == Some(t.clock)
          && t'.entries == (if R.Drops(m) && t.working.Some? then Without(t.entries, t.working.value) else t.entries)
               + [Entry(t.clock, ShownAs(place, m))])
  }

  /** Every receipt is true, for every list of mishaps: a projection that was cut short has none. */
  lemma ReceiptIsTrue(place: Place, t: Thread, m: Message, mishaps: seq<Mishap>)
    ensures var (t', end) := RunWith(m, Start(place, m), t, mishaps);
            end.Returned? ==> IsTrue(place, t, m, t', end.result)
  {
    if m.kind.Lifecycle? {
      StatusReceipt(place, t, m, mishaps);
    } else if Start(place, m).ReadWorking? {
      WorkingReceipt(place, t, m, mishaps);
    } else {
      PostReceipt(m, Start(place, m).link, t, mishaps);
    }
  }

  lemma PostReceipt(m: Message, link: Link, t: Thread, mishaps: seq<Mishap>)
    requires !m.kind.Lifecycle?
    ensures var (t', end) := RunWith(m, PostOwn(link), t, mishaps);
      end.Returned? ==>
        && end.result == Result(if Standalone(m) && m.kind.Finding? then Composite else Posted, Some(t.clock), false)
        && t' == t.(entries := t.entries + [Entry(t.clock, Body(m, link))])
  {
  }

  lemma EditReceipt(m: Message, post: nat, t: Thread, mishaps: seq<Mishap>)
    requires !m.kind.Lifecycle?
    ensures var (t', end) := RunWith(m, UpdateWorking(post), t, mishaps);
      end.Returned? ==>
        && end.result == Result(Updated, Some(post), false) && Shows(t.entries, post)
        && t' == t.(entries := Rewrite(t.entries, post, Replacement(m)), working := if Narrates(m) then t.working else None)
  {
    hide Shows, Rewrite, Replacement;
    RunsOn(m, UpdateWorking(post), t, mishaps);
    RunsOn(m, ClearUpdated(post), t.(entries := Rewrite(t.entries, post, Replacement(m))), Tail(mishaps));
  }

  lemma NarrationReceipt(m: Message, t: Thread, mishaps: seq<Mishap>)
    requires !m.kind.Lifecycle?
    ensures var (t', end) := RunWith(m, PostNarration, t, mishaps);
      end.Returned? ==>
        && end.result == Result(Posted, Some(t.clock), false)
        && t' == t.(entries := t.entries + [Entry(t.clock, Activity(m))], working := Some(t.clock))
  {
    RunsOn(m, PostNarration, t, mishaps);
    RunsOn(m, SetWorking(t.clock), t.(entries := t.entries + [Entry(t.clock, Activity(m))]), Tail(mishaps));
  }

  lemma DropReceipt(m: Message, post: nat, t: Thread, mishaps: seq<Mishap>)
    requires Standalone(m) && m.kind.Finding?
    ensures var (t', end) := RunWith(m, DeleteWorking(post), t, mishaps);
      end.Returned? ==>
        && end.result == Result(Composite, Some(t.clock), false)
        && t' == t.(entries := Without(t.entries, post) + [Entry(t.clock, Body(m, NoLink))], working := None)
  {
    hide Without;
    var dropped := t.(entries := Without(t.entries, post));
    RunsOn(m, DeleteWorking(post), t, mishaps);
    RunsOn(m, ClearDeleted, dropped, Tail(mishaps));
    PostReceipt(m, NoLink, dropped.(working := None), Tail(Tail(mishaps)));
  }

  lemma WorkingReceipt(place: Place, t: Thread, m: Message, mishaps: seq<Mishap>)
    requires Start(place, m).ReadWorking? && !m.kind.Lifecycle?
    ensures var (t', end) := RunWith(m, Start(place, m), t, mishaps);
            end.Returned? ==> IsTrue(place, t, m, t', end.result)
  {
    hide RunWith, Shows, Rewrite, Without, HandsOff;
    var rest := Tail(mishaps);
    RunsOn(m, ReadWorking, t, mishaps);
    RunEnds(m, Returned(Result(Deleted, None, true)), t, rest);
    RunEnds(m, Threw(Unexpected), t, rest);
    NarrationReceipt(m, t, rest);
    PostReceipt(m, NoLink, t, rest);
    PostReceipt(m, IncidentLink, t, rest);
    if t.working.Some? {
      if R.Drops(m) {
        DropReceipt(m, t.working.value, t, rest);
      } else {
        EditReceipt(m, t.working.value, t, rest);
      }
    }
  }

  lemma StatusReceipt(place: Place, t: Thread, m: Message, mishaps: seq<Mishap>)
    requires m.kind.Lifecycle?
    ensures var (t', end) := RunWith(m, Start(place, m), t, mishaps);
            end.Returned? ==> IsTrue(place, t, m, t', end.result)
  {
    hide Shows, Rewrite, Without, HandsOff;
    if m.version.Some? {
      var rest := Tail(mishaps);
      RunsOn(m, ReadStatus, t, mishaps);
      if t.status.Some? {
        UpdateReceipt(m, t.status.value, t, rest);
      } else {
        CreateReceipt(m, t, rest);
      }
    }
  }

  lemma UpdateReceipt(m: Message, post: nat, t: Thread, mishaps: seq<Mishap>)
    requires m.kind.Lifecycle? && m.version.Some?
    ensures var (t', end) := RunWith(m, UpdateStatus(post), t, mishaps);
      end.Returned? ==>
        && end.result == Result(Updated, Some(post), false) && Shows(t.entries, post)
        && t'.entries == Rewrite(t.entries, post, Body(m, IncidentLink))
        && t'.status == Some(post) && t'.version == m.version.value
  {
    hide Shows, Rewrite;
    RunsOn(m, UpdateStatus(post), t, mishaps);
    RunsOn(m, AdvanceUpdated(post), t.(entries := Rewrite(t.entries, post, Body(m, IncidentLink))), Tail(mishaps));
  }

  lemma CreateReceipt(m: Message, t: Thread, mishaps: seq<Mishap>)
    requires m.kind.Lifecycle? && m.version.Some?
    ensures var (t', end) := RunWith(m, CheckAmbiguous, t, mishaps);
      end.Returned? ==>
        && end.result == Result(Posted, Some(t.clock), false)
        && t'.entries == t.entries + [Entry(t.clock, Body(m, IncidentLink))]
        && t'.status == Some(t.clock) && t'.version == m.version.value
  {
    var posted := t.(entries := t.entries + [Entry(t.clock, Body(m, IncidentLink))]);
    RunsOn(m, CheckAmbiguous, t, mishaps);
    RunsOn(m, PostStatus, t, Tail(mishaps));
    RunsOn(m, AdvanceCreated(t.clock), posted, Tail(Tail(mishaps)));
  }

  /** The deliveries that make later status posts ambiguous are those the fan-out records as uncertain. */
  lemma UnresolvedIsUncertain(end: Phase)
    requires end.Returned? || end.Threw?
    ensures Unresolved(end) <==> StageAfter(end) == Finishing(Uncertain)
  {
  }

  /** The deliveries of a conversation one after the other, each with the mishaps its calls meet. */
  function ReplayWith(place: Place, msgs: seq<Message>, mishaps: seq<seq<Mishap>>): Thread
    requires |msgs| == |mishaps|
  {
    if msgs == [] then EMPTY
    else var n := |msgs| - 1; DeliverWith(place, ReplayWith(place, msgs[..n], mishaps[..n]), msgs[n], mishaps[n])
  }

  /** Delivery `i` is a status update whose outcome the fan-out records as uncertain. */
  ghost predicate EndsInDoubt(place: Place, msgs: seq<Message>, mishaps: seq<seq<Mishap>>, i: nat)
    requires i < |msgs| == |mishaps|
  {
    msgs[i].kind.Lifecycle? &&
    StageAfter(RunWith(msgs[i], Start(place, msgs[i]), ReplayWith(place, msgs[..i], mishaps[..i]), mishaps[i]).1)
      == Finishing(Uncertain)
  }

  ghost predicate SomeInDoubt(place: Place, msgs: seq<Message>, mishaps: seq<seq<Mishap>>)
    requires |msgs| == |mishaps|
  {
    exists i | 0 <= i < |msgs| :: EndsInDoubt(place, msgs, mishaps, i)
  }

  lemma SamePrefix(place: Place, msgs: seq<Message>, mishaps: seq<seq<Mishap>>, n: nat, i: nat)
    requires i < n <= |msgs| == |mishaps|
    ensures EndsInDoubt(place, msgs, mishaps, i) <==> EndsInDoubt(place, msgs[..n], mishaps[..n], i)
  {
    assert msgs[..n][..i] == msgs[..i] && mishaps[..n][..i] == mishaps[..i];
  }

  lemma DoubtStep(place: Place, t: Thread, m: Message, mishaps: seq<Mishap>)
    ensures DeliverWith(place, t, m, mishaps).ambiguous <==>
      t.ambiguous || (m.kind.Lifecycle? && StageAfter(RunWith(m, Start(place, m), t, mishaps).1) == Finishing(Uncertain))
  {
    StartFits(place, m);
    hide RunWith, Start, StageAfter;
    RunStops(m, Start(place, m), t, mishaps);
    UnresolvedIsUncertain(RunWith(m, Start(place, m), t, mishaps).1);
  }

  /** Whatever goes wrong, first status posts are in doubt exactly once a status update, and no other message, ended in doubt. */
  lemma {:induction false} DoubtIsFromStatus(place: Place, msgs: seq<Message>, mishaps: seq<seq<Mishap>>)
    requires |msgs| == |mishaps|
    ensures ReplayWith(place, msgs, mishaps).ambiguous <==> SomeInDoubt(place, msgs, mishaps)
    decreases |msgs|
  {
    if msgs != [] {
      hide RunWith, Start, StageAfter, DeliverWith;
      var n := |msgs| - 1;
      DoubtIsFromStatus(place, msgs[..n], mishaps[..n]);
      DoubtStep(place, ReplayWith(place, msgs[..n], mishaps[..n]), msgs[n], mishaps[n]);
      OneMoreInDoubt(place, msgs, mishaps);
    }
  }

  lemma OneMoreInDoubt(place: Place, msgs: seq<Message>, mishaps: seq<seq<Mishap>>)
    requires |msgs| == |mishaps| > 0
    ensures var n := |msgs| - 1;
      SomeInDoubt(place, msgs, mishaps) <==> SomeInDoubt(place, msgs[..n], mishaps[..n]) || EndsInDoubt(place, msgs, mishaps, n)
  {
    hide EndsInDoubt;
    var n := |msgs| - 1;
    if SomeInDoubt(place, msgs, mishaps) && !EndsInDoubt(place, msgs, mishaps, n) {
      var i :| 0 <= i < |msgs| && EndsInDoubt(place, msgs, mishaps, i);
      SamePrefix(place, msgs, mishaps, n, i);
    }
    if SomeInDoubt(place, msgs[..n], mishaps[..n]) {
      var i :| 0 <= i < n && EndsInDoubt(place, msgs[..n], mishaps[..n], i);
      SamePrefix(place, msgs, mishaps, n, i);
    }
  }

  lemma {:induction false} RunStops(m: Message, p: Phase, t: Thread, mishaps: seq<Mishap>)
    requires p.Returned? || p.Threw? || Fits(m, p)
    ensures var end := RunWith(m, p, t, mishaps).1; end.Returned? || end.Threw?
    decreases AwaitsLeft(p)
  {
    if !p.Returned? && !p.Threw? {
      var (t', answer) := Meet(t, CallOf(m, p), Head(mishaps));
      RunStops(m, Resume(m, p, answer), t', Tail(mishaps));
    }
  }

  /** The mishap that one answer of Slack is to the conversation. */
  function MishapOf(reply: SlackReply): Mishap {
    match reply
    case Accept => Fine
    case AcceptWithoutStamp => Unstamped
    case Reject => Refuses
    case RateLimit => RateLimits
    case Ambiguous(landed) => Breaks(landed)
  }

  /** A call to Slack means the same to the conversation run alone and to the protocol, however it is answered. */
  lemma RepliesAreMishaps(s: State, a: nat, t: Thread, call: Call, reply: SlackReply)
    requires Present(s, a) && IsSlackCall(call) && t.clock == s.now && (call.Update? ==> Shows(t.entries, call.post))
    ensures var (t', answer) := Meet(t, call, MishapOf(reply));
      && answer == ServeSlack(s, a, call, reply).1
      && t' == t.(entries := Changed(t.entries, s.now, call, reply))
      && (|ServeSlack(s, a, call, reply).0.creations| > |s.creations| <==> call.Post? && TakesEffect(call, MishapOf(reply)))
  {
    hide Shows, Rewrite, Without;
  }

  /** A call to a store that throws means the same to both, whether it took effect or not. */
  lemma StoreFailuresAreMishaps(m: Message, p: Phase, t: Thread, landed: bool)
    requires Fits(m, p) && !IsSlackCall(CallOf(m, p))
    ensures var (t', answer) := Meet(t, CallOf(m, p), Breaks(landed));
      && StageAfter(Resume(m, p, answer)) == Finishing(Uncertain)
      && t' == (if landed then Serve(t, CallOf(m, p)).0 else t)
  {
  }

  // ---------------------------------------------------------------------------------------------
  // Every run of the protocol

  /** Event `k` is a call of attempt `a` to Slack. */
  ghost predicate CallsSlack(events: seq<Event>, k: nat, a: nat) {
    && k < |events| && Possible(events[..k]) && Enabled(After(events[..k]), events[k])
    && SlackAwait(After(events[..k]), events[k], a)
  }

  ghost predicate SlackAwait(s: State, e: Event, a: nat)
    requires Enabled(s, e)
  {
    e.Await? && e.attempt == a && IsSlackCall(CallOf(RowOf(s, a).msg, s.attempts[a].stage.phase))
  }

  /** How Slack answered the latest call of attempt `a`, if it made one. */
  ghost function LastAnswer(events: seq<Event>, a: nat): Option<SlackReply>
    requires Possible(events)
  {
    if events == [] then None
    else
      var n := |events| - 1;
      if SlackAwait(After(events[..n]), events[n], a) then Some(events[n].reply) else LastAnswer(events[..n], a)
  }

  /** Slack took the call, with a timestamp or without. */
  predicate WentWell(last: Option<SlackReply>) {
    last.None? || last.value.Accept? || last.value.AcceptWithoutStamp?
  }

  /** What a stage tells about the calls its attempt has made and how the latest of them went. */
  predicate Told(stage: Stage, last: Option<SlackReply>) {
    match stage
    case Leased => last.None?
    case Applying(p) =>
      && WentWell(last)
      && (p.AdvanceCreated? || p.AdvanceUpdated? || p.ClearUpdated? || p.ClearDeleted? || p.SetWorking? ==> last.Some?)
      && (p.AdvanceCreated? || p.AdvanceUpdated? || p.ClearUpdated? || p.ClearDeleted? || p.SetWorking? || p.PostOwn?
          || last.None?)
    case Renewing(result) => WentWell(last) && (last.Some? <==> !result.skipped)
    case Finishing(outcome) =>
      Weighed(outcome, last) && (outcome.Uncertain? ==> last != Some(Reject) && last != Some(RateLimit))
    case Retrying => last == Some(RateLimit)
    case _ => true
  }

  /** What the state of a row tells about the calls of the attempt that owns it. */
  predicate Weighed(d: Delivery, last: Option<SlackReply>) {
    match d
    case Accepted => last.Some? && WentWell(last)
    case Skipped => last.None?
    case Blocked => last.None?
    case Rejected => last == Some(Reject) || last == Some(AcceptWithoutStamp)
    case _ => true
  }

  lemma PhaseTold(s: State, a: nat, reply: SlackReply, last: Option<SlackReply>)
    requires Enabled(s, Await(a, reply)) && Told(s.attempts[a].stage, last)
    ensures var m, p := RowOf(s, a).msg, s.attempts[a].stage.phase; var call := CallOf(m, p);
      Told(StageAfter(Resume(m, p,
             if IsSlackCall(call) then ServeSlack(s, a, call, reply).1 else ServeStore(s, a, call).1)),
           if IsSlackCall(call) then Some(reply) else last)
  {
    hide Create;
  }

  lemma StartTold(place: Place, m: Message)
    ensures Told(StageAfter(Start(place, m)), None)
  {
  }

  ghost function Heard(s: State, e: Event, a: nat, last: Option<SlackReply>): Option<SlackReply>
    requires Enabled(s, e)
  {
    if SlackAwait(s, e, a) then Some(e.reply) else last
  }

  lemma AwaitTold(s: State, a: nat, reply: SlackReply, last: Option<SlackReply>)
    requires Enabled(s, Await(a, reply)) && Told(s.attempts[a].stage, last)
    ensures var t := Next(s, Await(a, reply));
      a in t.attempts && Told(t.attempts[a].stage, Heard(s, Await(a, reply), a, last))
  {
    hide Resume, StageAfter, Told, ServeStore, ServeSlack;
    PhaseTold(s, a, reply, last);
    A.AwaitFrame(s, a, reply);
  }

  lemma StepTold(s: State, e: Event, a: nat, last: Option<SlackReply>)
    requires Enabled(s, e) && a in s.attempts && a < s.now && Told(s.attempts[a].stage, last)
    ensures a in Next(s, e).attempts
    ensures Told(Next(s, e).attempts[a].stage, Heard(s, e, a, last))
  {
    hide Next;
    if e.Await? {
      A.AwaitFrame(s, e.attempt, e.reply);
      if e.attempt == a {
        AwaitTold(s, a, e.reply, last);
      }
    } else {
      OtherTold(s, e, a, last);
    }
  }

  lemma OtherTold(s: State, e: Event, a: nat, last: Option<SlackReply>)
    requires Enabled(s, e) && !e.Await? && a in s.attempts && a < s.now && Told(s.attempts[a].stage, last)
    ensures a in Next(s, e).attempts && Told(Next(s, e).attempts[a].stage, last)
  {
    hide Next, Enabled, Effect, Told;
    if e.Claim? || e.ClaimFailed? {
      ClaimTold(s, e, a, last);
    } else if e.Renew? || e.Finish? || e.FinishFailed? {
      CloseTold(s, e, a, last);
    } else {
      RestTold(s, e, a, last);
    }
  }

  lemma ClaimTold(s: State, e: Event, a: nat, last: Option<SlackReply>)
    requires Enabled(s, e) && (e.Claim? || e.ClaimFailed?) && a in s.attempts && Told(s.attempts[a].stage, last)
    ensures a in Next(s, e).attempts && Told(Next(s, e).attempts[a].stage, last)
  {
    hide Start, StageAfter, Holds;
    StartTold(s.bindings[BindingOf(s, e.attempt)].place, RowOf(s, e.attempt).msg);
  }

  lemma CloseTold(s: State, e: Event, a: nat, last: Option<SlackReply>)
    requires Enabled(s, e) && (e.Renew? || e.Finish? || e.FinishFailed?)
    requires a in s.attempts && Told(s.attempts[a].stage, last)
    ensures a in Next(s, e).attempts && Told(Next(s, e).attempts[a].stage, last)
  {
    hide Holds, LeaseStore.Renewed;
  }

  lemma RestTold(s: State, e: Event, a: nat, last: Option<SlackReply>)
    requires Enabled(s, e) && !e.Await? && !e.Claim? && !e.ClaimFailed? && !e.Renew? && !e.Finish? && !e.FinishFailed?
    requires a in s.attempts && a < s.now && Told(s.attempts[a].stage, last)
    ensures a in Next(s, e).attempts && Told(Next(s, e).attempts[a].stage, last)
  {
    hide ServeStore, CallOf, Holds, LeaseStore.Renewed, LeaseStore.Released;
    if e.StoreFailed? {
      A.StoreFrame(s, e.attempt, CallOf(RowOf(s, e.attempt).msg, s.attempts[e.attempt].stage.phase));
    }
  }

  /** The row of an owner takes the outcome its owner came to, or is swept. */
  lemma RowWeighed(s: State, e: Event, a: nat, last: Option<SlackReply>)
    requires A.Inv(s) && Enabled(s, e) && a in s.attempts && Told(s.attempts[a].stage, last)
    requires s.attempts[a].claimed ==> Weighed(s.rows[s.attempts[a].row].state, last)
    ensures a in Next(s, e).attempts
    ensures var x := Next(s, e).attempts[a];
      x.claimed ==> x.row in Next(s, e).rows && Weighed(Next(s, e).rows[x.row].state, Heard(s, e, a, last))
  {
    hide Next, Enabled, Effect, A.Inv, Told, Heard;
    A.OwnedAt(s, a);
    L.AttemptsStay(s, e, a);
    L.AttemptStep(s, e, a);
    if s.attempts[a].claimed && A.RecordsNothing(e, a) {
      A.OwnedRowStep(s, e, a);
      UnheardOnceSettled(s, e, a, last);
    } else if s.attempts[a].claimed {
      OutcomeWeighed(s, e, a, last);
    } else {
      ClaimWeighed(s, e, a, last);
    }
  }

  /** An attempt makes no call once its row has an outcome other than uncertain. */
  lemma UnheardOnceSettled(s: State, e: Event, a: nat, last: Option<SlackReply>)
    requires A.Inv(s) && Enabled(s, e) && a in s.attempts && s.attempts[a].claimed && s.attempts[a].row in s.rows
    ensures Heard(s, e, a, last) == last || InFlight(s.rows[s.attempts[a].row].state)
  {
    hide A.Typed, A.Logged;
  }

  lemma OutcomeWeighed(s: State, e: Event, a: nat, last: Option<SlackReply>)
    requires Enabled(s, e) && (e.Finish? || e.FinishFailed? || e.Reschedule?) && e.attempt == a
    requires a in s.attempts && Told(s.attempts[a].stage, last) && Weighed(s.rows[s.attempts[a].row].state, last)
    ensures var x := Next(s, e).attempts[a];
      x.claimed ==> x.row in Next(s, e).rows && Weighed(Next(s, e).rows[x.row].state, Heard(s, e, a, last))
  {
  }

  lemma ClaimWeighed(s: State, e: Event, a: nat, last: Option<SlackReply>)
    requires A.Inv(s) && Enabled(s, e) && a in s.attempts && !s.attempts[a].claimed
    ensures a in Next(s, e).attempts
    ensures var x := Next(s, e).attempts[a];
      x.claimed ==> x.row in Next(s, e).rows && Next(s, e).rows[x.row].state.Sending?
  {
    hide Next, Enabled, Effect, A.Inv;
    A.OwnedAt(s, a);
    L.AttemptsStay(s, e, a);
    if e.Claim? || e.ClaimFailed? {
      ClaimSends(s, e, a);
    } else {
      OnlyClaimsClaim(s, e, a);
    }
  }

  lemma OnlyClaimsClaim(s: State, e: Event, a: nat)
    requires Enabled(s, e) && a in s.attempts && !s.attempts[a].claimed && !e.Claim? && !e.ClaimFailed?
    requires a < s.now
    ensures a in Next(s, e).attempts && !Next(s, e).attempts[a].claimed
  {
    hide AwaitStep, StoreFailedStep, Start, StageAfter, CallOf, Holds, LeaseStore.Renewed, LeaseStore.Released;
    if e.Await? {
      A.AwaitFrame(s, e.attempt, e.reply);
    } else if e.StoreFailed? {
      A.StoreFailedMoves(s, e.attempt, e.landed);
    }
  }

  lemma ClaimSends(s: State, e: Event, a: nat)
    requires Enabled(s, e) && (e.Claim? || e.ClaimFailed?) && a in s.attempts && !s.attempts[a].claimed
    ensures var x := Next(s, e).attempts[a];
      x.claimed ==> x.row in Next(s, e).rows && Next(s, e).rows[x.row].state.Sending?
  {
    hide Start, StageAfter, Holds;
  }

  ghost predicate Truthful(events: seq<Event>, a: nat)
    requires Possible(events)
  {
    var s := After(events);
    a in s.attempts ==>
      && Told(s.attempts[a].stage, LastAnswer(events, a))
      && (s.attempts[a].claimed ==>
            s.attempts[a].row in s.rows && Weighed(s.rows[s.attempts[a].row].state, LastAnswer(events, a)))
  }

  /** Only attempts that exist have called. */
  lemma {:induction false} CallersExist(events: seq<Event>, a: nat)
    requires Possible(events) && LastAnswer(events, a).Some?
    ensures a in After(events).attempts
    decreases |events|
  {
    hide Next, Effect, Possible, After;
    var n := |events| - 1;
    LastStep(events);
    if !SlackAwait(After(events[..n]), events[n], a) {
      CallersExist(events[..n], a);
    }
    L.AttemptsStay(After(events[..n]), events[n], a);
  }

  lemma {:induction false} RunKeeps(events: seq<Event>, a: nat)
    requires Possible(events)
    ensures Truthful(events, a)
    decreases |events|
  {
    hide Next, Enabled, Effect, Possible, After, Told, Weighed, A.Inv, SlackAwait;
    if events == [] {
      L.NothingYet();
    } else {
      var n := |events| - 1;
      LastStep(events);
      var s := After(events[..n]);
      RunKeeps(events[..n], a);
      A.RunKeeps(events[..n]);
      L.AttemptsAreAcquired(events[..n]);
      if a in s.attempts {
        StepTold(s, events[n], a, LastAnswer(events[..n], a));
        A.OwnedAt(s, a);
        RowWeighed(s, events[n], a, LastAnswer(events[..n], a));
      } else if a in After(events).attempts {
        L.AttemptStep(s, events[n], a);
        AcquireTold(s, events[n], a);
        if LastAnswer(events[..n], a).Some? {
          CallersExist(events[..n], a);
        }
      }
    }
  }

  lemma AcquireTold(s: State, e: Event, a: nat)
    requires Enabled(s, e) && e.Acquire? && a == s.now
    ensures a in Next(s, e).attempts && !Next(s, e).attempts[a].claimed && !SlackAwait(s, e, a)
    ensures Told(Next(s, e).attempts[a].stage, None)
  {
  }

  lemma {:induction false} AnsweredIfCalled(events: seq<Event>, a: nat)
    requires Possible(events)
    ensures LastAnswer(events, a).Some? <==> exists k: nat :: CallsSlack(events, k, a)
    decreases |events|
  {
    hide Next, Enabled, Effect, Possible, After, SlackAwait;
    if events != [] {
      var n := |events| - 1;
      LastStep(events);
      AnsweredIfCalled(events[..n], a);
      assert SlackAwait(After(events[..n]), events[n], a) ==> CallsSlack(events, n, a);
      if k: nat :| CallsSlack(events, k, a) && k < n {
        assert events[..n][..k] == events[..k];
        assert CallsSlack(events[..n], k, a);
      }
      if k: nat :| CallsSlack(events[..n], k, a) {
        assert events[..n][..k] == events[..k];
        assert CallsSlack(events, k, a);
      }
    }
  }

  // ---------------------------------------------------------------------------------------------
  // Results

  /** In every run a delivered row ends skipped exactly if its attempt made no call to Slack, and accepted otherwise. */
  lemma SkippedExactlyIfSilent(events: seq<Event>, r: nat)
    requires Possible(events) && r in After(events).rows && L.Delivered(After(events).rows[r].state)
    ensures r in After(events).renewals
    ensures After(events).rows[r].state.Skipped? <==> forall k: nat :: !CallsSlack(events, k, After(events).renewals[r].from)
  {
    hide Next, Enabled, Effect, Possible, After, CallsSlack;
    L.RunKeeps(events);
    var a := After(events).renewals[r].from;
    RunKeeps(events, a);
    AnsweredIfCalled(events, a);
  }

  /**
   In every run, what Slack answered last decides what an attempt can still make of its row: a refusal leads
   to `rejected`, a rate limit to a retry, an ambiguous failure to `uncertain`, unless others sweep the row.
   Conversely a row is rejected only if Slack refused a call, or took a post without a timestamp, blocked by
   its owner only before any call, and handed back only after a rate limit.
   */
  lemma AnswersDecide(events: seq<Event>, a: nat)
    requires Possible(events) && a in After(events).attempts && After(events).attempts[a].claimed
    ensures var s, last := After(events), LastAnswer(events, a); var x := s.attempts[a];
      && x.row in s.rows
      && var d := s.rows[x.row].state;
         && (d.Rejected? ==> last == Some(Reject) || last == Some(AcceptWithoutStamp))
         && (d.Blocked? || d.Skipped? ==> last.None?)
         && (d.Accepted? ==> last == Some(Accept) || last == Some(AcceptWithoutStamp))
         && (last == Some(Reject) ==>
               (x.stage == Finishing(Rejected) || x.stage.Releasing? || x.stage.Gone?) && (d.Rejected? || InFlight(d)))
         && (last == Some(RateLimit) ==> (x.stage.Retrying? || x.stage.Releasing? || x.stage.Gone?) && InFlight(d))
         && (last.Some? && last.value.Ambiguous? ==>
               (x.stage == Finishing(Uncertain) || x.stage.Releasing? || x.stage.Gone?) && InFlight(d))
         && (x.stage.Retrying? ==> last == Some(RateLimit))
  {
    hide Next, Enabled, Effect, Possible, After;
    RunKeeps(events, a);
    A.RunKeeps(events);
    A.OwnedAt(After(events), a);
  }
}
