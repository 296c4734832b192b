/** The fan-out of one worker, read as a run of the delivery protocol. */
module FanoutInProtocol {
  import opened Prelude
  import opened Destinations
  import opened Projection
  import opened Deliveries
  import opened LeaseStore
  import opened DeliveryProtocol
  import A = AtMostOnce
  import L = LeaseSpans
  import F = Fanout

  function Record(a: nat, port: Port): Event {
    if port.Works? then Finish(a) else FinishFailed(a, port.landed)
  }

  /** What the catch clause does about `error`. */
  function CatchEvent(a: nat, sc: F.Scenario, error: Error): Event {
    match error
    case ProjectionBlocked => Record(a, sc.finish)
    case SlackFailed(Retryable) => Reschedule(a, Lands(sc.retry))
    case _ => Record(a, sc.giveUp)
  }

  /** The attempt has come to the end of its projection as the scenario says. */
  ghost predicate AtEnd(s: State, a: nat, sc: F.Scenario) {
    && Present(s, a)
    && s.attempts[a].stage == StageAfter(sc.projection)
    && (sc.projection.Returned? ==>
          s.attempts[a].lapsed == sc.heartbeatLost
          && (sc.renewal.Got? ==> (sc.renewal.value <==> Holds(s, a, BindingOf(s, a)))))
  }

  ghost predicate Recorded(s: State, a: nat, row: Option<F.Receipt>) {
    Present(s, a) && row.Some? && RowOf(s, a).state == row.value.state
  }

  lemma Continue(events: seq<Event>, e: Event)
    requires Possible(events) && Enabled(After(events), e)
    ensures Possible(events + [e]) && After(events + [e]) == Next(After(events), e)
  {
    assert (events + [e])[..|events|] == events;
  }

  lemma RecordAgrees(s: State, a: nat, outcome: Outcome, port: Port, row: Option<F.Receipt>)
    requires Present(s, a) && Recorded(s, a, row) && s.attempts[a].stage == Finishing(outcome)
    ensures Enabled(s, Record(a, port))
    ensures var t := Next(s, Record(a, port));
            && Recorded(t, a, F.Ended(row, outcome, port)) && t.creations == s.creations
            && t.attempts[a].stage ==
               if port.Throws? && (outcome.Accepted? || outcome.Skipped?) then Finishing(Uncertain) else Releasing
  {
  }

  lemma RescheduleAgrees(s: State, a: nat, after: int, port: Port, row: Option<F.Receipt>)
    requires Present(s, a) && Recorded(s, a, row) && s.attempts[a].stage == Retrying
    ensures Enabled(s, Reschedule(a, Lands(port)))
    ensures var t := Next(s, Reschedule(a, Lands(port)));
            && Recorded(t, a, F.PutOff(row, Sending, after, port)) && t.creations == s.creations
            && t.attempts[a].stage.Releasing?
  {
  }

  lemma CatchAgrees(s: State, a: nat, sc: F.Scenario, error: Error, row: Option<F.Receipt>)
    requires Present(s, a) && Recorded(s, a, row) && s.attempts[a].stage == StageAfter(Threw(error))
    ensures Enabled(s, CatchEvent(a, sc, error))
    ensures var t := Next(s, CatchEvent(a, sc, error));
            Recorded(t, a, F.Caught(row, sc, error).0) && t.attempts[a].stage.Releasing? && t.creations == s.creations
  {
    hide Next, Enabled, Recorded, F.Ended, F.PutOff;
    if error == SlackFailed(Retryable) {
      RescheduleAgrees(s, a, sc.clock + sc.retryAfter, sc.retry, row);
    } else {
      var outcome: Outcome :=
        if error.ProjectionBlocked? then Blocked else if error == SlackFailed(Refused) then Rejected else Uncertain;
      RecordAgrees(s, a, outcome, if error.ProjectionBlocked? then sc.finish else sc.giveUp, row);
    }
  }

  lemma RenewAgrees(s: State, a: nat, sc: F.Scenario, result: Result, row: Option<F.Receipt>)
    requires Recorded(s, a, row) && s.attempts[a].stage == Renewing(result) && Answers(s, a, sc)
    ensures Enabled(s, Renew(a, sc.renewal.Failed?))
    ensures var t := Next(s, Renew(a, sc.renewal.Failed?));
            && Recorded(t, a, row) && t.creations == s.creations
            && t.attempts[a].stage == AfterRenewal(result, sc) && t.attempts[a].claimed == s.attempts[a].claimed
  {
  }

  // ---------------------------------------------------------------------------------------------
  // From the end of the projection to the recorded outcome, step by step

  /** The final renewal will answer what the scenario has it answer. */
  ghost predicate Answers(s: State, a: nat, sc: F.Scenario)
    requires Present(s, a)
  {
    && s.attempts[a].lapsed == sc.heartbeatLost
    && (sc.renewal.Got? ==> (sc.renewal.value <==> Holds(s, a, BindingOf(s, a))))
  }

  function AfterRenewal(result: Result, sc: F.Scenario): Stage {
    Finishing(if sc.heartbeatLost || sc.renewal != Got(true) then Uncertain
              else if result.skipped then Skipped else Accepted)
  }

  function StepsLeft(stage: Stage): nat {
    match stage
    case Renewing(_) => 3
    case Finishing(outcome) => if outcome.Accepted? || outcome.Skipped? then 2 else 1
    case Retrying => 1
    case _ => 0
  }

  function RecordPort(outcome: Outcome, sc: F.Scenario): Port {
    if outcome.Accepted? || outcome.Skipped? || outcome.Blocked? then sc.finish else sc.giveUp
  }

  /** What the attempt does next at a stage, where it then is, and what that leaves on the row. */
  function OwnEvent(a: nat, stage: Stage, sc: F.Scenario): Event
    requires StepsLeft(stage) > 0
  {
    match stage
    case Renewing(_) => Renew(a, sc.renewal.Failed?)
    case Finishing(outcome) => Record(a, RecordPort(outcome, sc))
    case _ => Reschedule(a, Lands(sc.retry))
  }

  function StageNext(stage: Stage, sc: F.Scenario): (next: Stage)
    requires StepsLeft(stage) > 0
    ensures StepsLeft(next) < StepsLeft(stage)
  {
    match stage
    case Renewing(result) => AfterRenewal(result, sc)
    case Finishing(outcome) =>
      if RecordPort(outcome, sc).Throws? && (outcome.Accepted? || outcome.Skipped?) then Finishing(Uncertain) else Releasing
    case _ => Releasing
  }

  function RowNext(row: Option<F.Receipt>, stage: Stage, sc: F.Scenario): Option<F.Receipt>
    requires StepsLeft(stage) > 0
  {
    match stage
    case Renewing(_) => row
    case Finishing(outcome) => F.Ended(row, outcome, RecordPort(outcome, sc))
    case _ => F.PutOff(row, Sending, sc.clock + sc.retryAfter, sc.retry)
  }

  function FinalRow(row: Option<F.Receipt>, stage: Stage, sc: F.Scenario): Option<F.Receipt>
    decreases StepsLeft(stage)
  {
    if StepsLeft(stage) == 0 then row else FinalRow(RowNext(row, stage, sc), StageNext(stage, sc), sc)
  }

  /** The steps add up to what the fan-out leaves on the row. */
  lemma StepsConclude(row: Option<F.Receipt>, sc: F.Scenario)
    ensures F.Conclusion(row, sc).0 == FinalRow(row, StageAfter(sc.projection), sc)
    ensures F.Caught(row, sc, Unexpected).0 == FinalRow(row, Finishing(Uncertain), sc)
  {
  }

  lemma StepAgrees(s: State, a: nat, sc: F.Scenario, row: Option<F.Receipt>)
    requires Recorded(s, a, row) && StepsLeft(s.attempts[a].stage) > 0
    requires s.attempts[a].stage.Renewing? ==> Answers(s, a, sc)
    ensures var stage := s.attempts[a].stage; var e := OwnEvent(a, stage, sc);
      && Enabled(s, e)
      && var t := Next(s, e);
         && Recorded(t, a, RowNext(row, stage, sc)) && t.attempts[a].stage == StageNext(stage, sc)
         && t.creations == s.creations
         && (StepsLeft(StageNext(stage, sc)) > 0 ==> t.attempts[a].claimed == s.attempts[a].claimed)
  {
    hide F.Ended, F.PutOff;
    match s.attempts[a].stage
    case Renewing(result) => RenewAgrees(s, a, sc, result, row);
    case Finishing(outcome) => RecordAgrees(s, a, outcome, RecordPort(outcome, sc), row);
    case _ => RescheduleAgrees(s, a, sc.clock + sc.retryAfter, sc.retry, row);
  }

  // ---------------------------------------------------------------------------------------------
  // What others do in between

  /** Events of others, and the attempt's own heartbeats, which its timer goes on sending. */
  predicate ByOthers(events: seq<Event>, a: nat) {
    forall i | 0 <= i < |events| :: ByOther(events[i], a)
  }

  predicate ByOther(e: Event, a: nat) {
    ByAttempt(e) && e.attempt == a ==> e.Heartbeat?
  }

  /** A claimed row that was swept, disconnected, merged or split away. */
  function SweptRow(row: Option<F.Receipt>): Option<F.Receipt> {
    if row.Some? then F.Moved(row, Sending, row.value.(state := Uncertain)) else row
  }

  /** The attempt's part of a state. */
  ghost predicate Stays(s: State, t: State, a: nat) {
    && a in s.attempts && a in t.attempts && t.attempts[a].row == s.attempts[a].row
    && t.attempts[a].stage == s.attempts[a].stage && t.attempts[a].claimed == s.attempts[a].claimed
  }

  lemma OtherStep(s: State, e: Event, a: nat)
    requires Enabled(s, e) && a in s.attempts && a < s.now && ByOther(e, a)
    ensures Stays(s, Next(s, e), a)
  {
    hide AwaitStep, StoreFailedStep, Start, StageAfter, CallOf, Granted, Renewed, LeaseStore.Released, Holds, HeldBy, Fits;
    if e.Await? {
      A.AwaitFrame(s, e.attempt, e.reply);
    } else if e.StoreFailed? {
      A.StoreFailedMoves(s, e.attempt, e.landed);
    }
  }

  /** Creations by others only. */
  ghost predicate PostsNothing(s: State, t: State, a: nat) {
    s.creations <= t.creations && forall i | |s.creations| <= i < |t.creations| :: t.creations[i].attempt != a
  }

  lemma OtherPosts(s: State, e: Event, a: nat)
    requires Enabled(s, e) && ByOther(e, a)
    ensures PostsNothing(s, Next(s, e), a)
  {
    hide AwaitStep, StoreFailedStep, Start, StageAfter, CallOf, Granted, Renewed, LeaseStore.Released, Holds, HeldBy, Fits;
    if e.Await? {
      A.AwaitFrame(s, e.attempt, e.reply);
    } else if e.StoreFailed? {
      A.StoreFailedMoves(s, e.attempt, e.landed);
    }
  }

  lemma LastOther(events: seq<Event>, more: seq<Event>)
    requires Possible(events + more) && more != []
    ensures var m := |more| - 1; var before := events + more[..m];
      && Possible(before) && Enabled(After(before), more[m]) && After(events + more) == Next(After(before), more[m])
  {
    hide Next, Enabled, Effect, Possible, After;
    assert (events + more)[..|events| + |more| - 1] == events + more[..|more| - 1];
    LastStep(events + more);
  }

  lemma {:induction false} OthersKeepAttempt(events: seq<Event>, others: seq<Event>, a: nat)
    requires Possible(events) && Possible(events + others) && a in After(events).attempts && ByOthers(others, a)
    ensures Stays(After(events), After(events + others), a) && PostsNothing(After(events), After(events + others), a)
    decreases |others|
  {
    hide Next, Enabled, Effect, Possible, After;
    if others == [] {
      assert events + others == events;
    } else {
      var m := |others| - 1;
      LastOther(events, others);
      OthersKeepAttempt(events, others[..m], a);
      var s := After(events + others[..m]);
      L.AttemptsAreAcquired(events + others[..m]);
      OtherStep(s, others[m], a);
      OtherPosts(s, others[m], a);
    }
  }

  /** While its owner records nothing, a claimed row stays as it is or becomes uncertain from `sending`. */
  lemma {:induction false} OwnedRowStays(events: seq<Event>, more: seq<Event>, a: nat)
    requires Possible(events) && Possible(events + more)
    requires a in After(events).attempts && After(events).attempts[a].claimed
    requires forall i | 0 <= i < |more| :: A.RecordsNothing(more[i], a)
    ensures var s, t := After(events), After(events + more); var r := s.attempts[a].row;
      && a in t.attempts && t.attempts[a].row == r && t.attempts[a].claimed && r in s.rows && r in t.rows
      && !s.rows[r].state.Queued?
      && (t.rows[r].state == s.rows[r].state || (s.rows[r].state.Sending? && t.rows[r].state.Uncertain?))
    decreases |more|
  {
    hide Next, Enabled, Effect, Possible, After, A.Inv;
    if more == [] {
      assert events + more == events;
      A.RunKeeps(events);
      A.OwnedAt(After(events), a);
    } else {
      var m := |more| - 1;
      LastOther(events, more);
      OwnedRowStays(events, more[..m], a);
      A.RunKeeps(events + more[..m]);
      A.OwnedRowStep(After(events + more[..m]), more[m], a);
    }
  }

  /** Others may sweep a claimed row while its attempt is between two steps, and that is all they can do to it. */
  lemma OthersSweep(events: seq<Event>, others: seq<Event>, a: nat, row: Option<F.Receipt>)
    requires Possible(events) && Possible(events + others) && ByOthers(others, a)
    requires Recorded(After(events), a, row) && After(events).attempts[a].claimed
    ensures var t := After(events + others);
      && Stays(After(events), t, a) && PostsNothing(After(events), t, a)
      && (Recorded(t, a, row) || Recorded(t, a, SweptRow(row)))
  {
    hide Next, Enabled, Effect, Possible, After, A.Inv;
    OthersKeepAttempt(events, others, a);
    OwnedRowStays(events, others, a);
    StillPresent(events, others, a);
  }

  lemma StillPresent(events: seq<Event>, more: seq<Event>, a: nat)
    requires Possible(events + more) && a in After(events + more).attempts
    ensures Present(After(events + more), a)
  {
    A.RunKeeps(events + more);
  }

  // ---------------------------------------------------------------------------------------------
  // The closing steps with others in between

  function First(gaps: seq<seq<Event>>): seq<Event> {
    if gaps == [] then [] else gaps[0]
  }

  function Others(gaps: seq<seq<Event>>): seq<seq<Event>> {
    if gaps == [] then [] else gaps[1..]
  }

  /** The steps from `stage` on, with the events of a gap between any two of them. */
  function Woven(events: seq<Event>, a: nat, stage: Stage, sc: F.Scenario, gaps: seq<seq<Event>>): seq<Event>
    decreases StepsLeft(stage)
  {
    if StepsLeft(stage) == 0 then events
    else
      var more, next := events + [OwnEvent(a, stage, sc)], StageNext(stage, sc);
      if StepsLeft(next) == 0 then more else Woven(more + First(gaps), a, next, sc, Others(gaps))
  }

  /** Others can do what the gaps say, if the attempt can take its steps. */
  ghost predicate GapsFit(events: seq<Event>, a: nat, stage: Stage, sc: F.Scenario, gaps: seq<seq<Event>>)
    decreases StepsLeft(stage)
  {
    StepsLeft(stage) > 0 ==>
      var more, next := events + [OwnEvent(a, stage, sc)], StageNext(stage, sc);
      Possible(more) && StepsLeft(next) > 0 ==>
        Possible(more + First(gaps)) && ByOthers(First(gaps), a) && GapsFit(more + First(gaps), a, next, sc, Others(gaps))
  }

  /** A row swept between two steps ends as one swept before the first of them. */
  lemma SweptLater(row: Option<F.Receipt>, stage: Stage, sc: F.Scenario)
    requires StepsLeft(stage) > 0 && StepsLeft(StageNext(stage, sc)) > 0
    ensures var row', next := RowNext(row, stage, sc), StageNext(stage, sc);
      SweptRow(row') == row' || FinalRow(SweptRow(row'), next, sc) == FinalRow(SweptRow(row), stage, sc)
  {
    var row', next := RowNext(row, stage, sc), StageNext(stage, sc);
    assert SweptRow(row') == row' || SweptRow(row') == RowNext(SweptRow(row), stage, sc);
  }

  ghost predicate ClosedAs(events: seq<Event>, all: seq<Event>, a: nat, row: Option<F.Receipt>) {
    && Possible(events) && Possible(all) && Recorded(After(all), a, row) && After(all).attempts[a].stage.Releasing?
    && a in After(events).attempts && After(all).attempts[a].row == After(events).attempts[a].row
    && PostsNothing(After(events), After(all), a)
  }

  /**
   From the end of the projection on, whatever others do between the steps, the attempt can take its steps,
   and they leave on the row what the fan-out leaves on it, swept meanwhile or not.
   */
  lemma {:induction false} ClosingFollowsProtocol(events: seq<Event>, a: nat, sc: F.Scenario, row: Option<F.Receipt>, gaps: seq<seq<Event>>)
      returns (swept: bool)
    requires Possible(events) && Recorded(After(events), a, row) && StepsLeft(After(events).attempts[a].stage) > 0
    requires var x := After(events).attempts[a];
      && (x.stage.Renewing? ==> Answers(After(events), a, sc))
      && (StepsLeft(x.stage) > 1 ==> x.claimed)
      && GapsFit(events, a, x.stage, sc, gaps)
    ensures var stage := After(events).attempts[a].stage;
      ClosedAs(events, Woven(events, a, stage, sc, gaps), a, FinalRow(if swept then SweptRow(row) else row, stage, sc))
    decreases StepsLeft(After(events).attempts[a].stage)
  {
    hide Next, Enabled, Effect, Possible, After, Answers, RowNext, SweptRow, F.Ended, F.PutOff;
    L.AttemptsAreAcquired(events);
    var s := After(events);
    var stage := s.attempts[a].stage;
    var e, next := OwnEvent(a, stage, sc), StageNext(stage, sc);
    StepAgrees(s, a, sc, row);
    StepKeepsRow(s, e, a);
    Continue(events, e);
    var more := events + [e];
    if StepsLeft(next) == 0 {
      assert FinalRow(row, stage, sc) == RowNext(row, stage, sc);
      assert Woven(events, a, stage, sc, gaps) == more;
      swept := false;
    } else {
      assert Woven(events, a, stage, sc, gaps) == Woven(more + First(gaps), a, next, sc, Others(gaps));
      var later, row' := more + First(gaps), RowNext(row, stage, sc);
      OthersSweep(more, First(gaps), a, row');
      SweptLater(row, stage, sc);
      SweptTwice(row');
      if Recorded(After(later), a, row') {
        swept := ClosingFollowsProtocol(later, a, sc, row', Others(gaps));
      } else {
        var again := ClosingFollowsProtocol(later, a, sc, SweptRow(row'), Others(gaps));
        swept := true;
      }
      swept := swept && SweptRow(row') != row';
    }
  }

  lemma SweptTwice(row: Option<F.Receipt>)
    ensures SweptRow(SweptRow(row)) == SweptRow(row)
  {
  }

  lemma StepKeepsRow(s: State, e: Event, a: nat)
    requires Enabled(s, e) && a in s.attempts && a < s.now
    ensures a in Next(s, e).attempts && Next(s, e).attempts[a].row == s.attempts[a].row
  {
    L.AttemptsStay(s, e, a);
    L.AttemptStep(s, e, a);
  }

  // ---------------------------------------------------------------------------------------------
  // The whole visit

  predicate Wins(row: Option<F.Receipt>, sc: F.Scenario) {
    sc.claim.Works? && sc.visible && F.Due(row, sc)
  }

  /** The claim moved the row, whether or not the attempt knows. */
  predicate Owns(row: Option<F.Receipt>, sc: F.Scenario) {
    Lands(sc.claim) && sc.visible && F.Due(row, sc)
  }

  /** There is an outcome to record, if only that the claim threw. */
  predicate Closes(row: Option<F.Receipt>, sc: F.Scenario) {
    sc.claim.Throws? || Wins(row, sc)
  }

  /** What the claim of an archived incident does first. */
  function Archiving(r: nat, row: Option<F.Receipt>, sc: F.Scenario): seq<Event> {
    if Lands(sc.claim) && !sc.visible && row.Some? && row.value.state.Queued? then [BlockQueued(r)] else []
  }

  function ClaimEvent(a: nat, row: Option<F.Receipt>, sc: F.Scenario): Event {
    if sc.claim.Throws? then ClaimFailed(a, Owns(row, sc)) else Claim(a, Wins(row, sc))
  }

  /** The row once its claim was answered. */
  function Answered(row: Option<F.Receipt>, sc: F.Scenario): Option<F.Receipt> {
    if Lands(sc.claim) then F.Claimed(row, sc) else row
  }

  ghost predicate OnRow(s: State, a: nat, r: nat, row: Option<F.Receipt>) {
    Recorded(s, a, row) && s.attempts[a].row == r
  }

  lemma AcquireOpens(s: State, r: nat)
    requires Enabled(s, Acquire(r))
    ensures var t := Next(s, Acquire(r));
      && s.now in t.attempts && t.attempts[s.now].row == r
      && t.attempts[s.now].stage.Leased? && !t.attempts[s.now].claimed
  {
  }

  lemma ArchiveBlocks(s: State, a: nat, r: nat, row: Option<F.Receipt>)
    requires OnRow(s, a, r, row) && s.attempts[a].stage.Leased? && row.value.state.Queued?
    ensures Enabled(s, BlockQueued(r))
    ensures var t := Next(s, BlockQueued(r));
            OnRow(t, a, r, Some(row.value.(state := Blocked))) && t.attempts[a] == s.attempts[a]
  {
  }

  lemma ClaimAnswers(s: State, a: nat, r: nat, row: Option<F.Receipt>, sc: F.Scenario)
    requires OnRow(s, a, r, row) && s.attempts[a].stage.Leased? && !s.attempts[a].claimed
    requires Archiving(r, row, sc) == []
    ensures Enabled(s, ClaimEvent(a, row, sc))
    ensures var t := Next(s, ClaimEvent(a, row, sc));
      && OnRow(t, a, r, Answered(row, sc)) && (t.attempts[a].claimed <==> Owns(row, sc))
      && (!Closes(row, sc) ==> t.attempts[a].stage.Releasing?)
      && (sc.claim.Throws? ==> t.attempts[a].stage == Finishing(Uncertain))
  {
    hide Start, StageAfter, Holds;
  }

  /** The lease is taken at `events`, others go on, and then the claim finds the row in the state the receipt has. */
  ghost predicate Opens(events: seq<Event>, r: nat, waiting: seq<Event>, row: Option<F.Receipt>) {
    && Possible(events) && Enabled(After(events), Acquire(r))
    && var leased := events + [Acquire(r)] + waiting;
       && Possible(leased) && ByOthers(waiting, After(events).now)
       && row.Some? && r in After(leased).rows && After(leased).rows[r].state == row.value.state
  }

  ghost function Opening(events: seq<Event>, r: nat, waiting: seq<Event>, row: Option<F.Receipt>, sc: F.Scenario): seq<Event>
    requires Possible(events)
  {
    events + [Acquire(r)] + waiting + Archiving(r, row, sc) + [ClaimEvent(After(events).now, row, sc)]
  }

  /** What the claim's answer leaves the attempt with. */
  ghost predicate Begins(s: State, a: nat, r: nat, row: Option<F.Receipt>, sc: F.Scenario) {
    && OnRow(s, a, r, Answered(row, sc)) && (s.attempts[a].claimed <==> Owns(row, sc))
    && (!Closes(row, sc) ==> s.attempts[a].stage.Releasing?)
    && (sc.claim.Throws? ==> s.attempts[a].stage == Finishing(Uncertain))
  }

  /**
   Taking the lease and claiming, with whatever others do in between, is a possible run, and leaves on the
   row what the claim leaves on it.
   */
  lemma OpeningFollowsProtocol(events: seq<Event>, r: nat, waiting: seq<Event>, row: Option<F.Receipt>, sc: F.Scenario)
    requires Opens(events, r, waiting, row)
    ensures var begun := Opening(events, r, waiting, row, sc);
            Possible(begun) && Begins(After(begun), After(events).now, r, row, sc)
  {
    var leased := Waits(events, r, waiting, row);
    hide Next, Enabled, Effect, Possible, After, OnRow, Opens;
    var a, e := After(events).now, ClaimEvent(After(events).now, row, sc);
    if Archiving(r, row, sc) == [] {
      ClaimAnswers(After(leased), a, r, row, sc);
      Continue(leased, e);
      assert Opening(events, r, waiting, row, sc) == leased + [e];
    } else {
      var blocked := Some(row.value.(state := Blocked));
      ArchiveBlocks(After(leased), a, r, row);
      Continue(leased, BlockQueued(r));
      var archived := leased + [BlockQueued(r)];
      assert e == ClaimEvent(a, blocked, sc) && Answered(blocked, sc) == Answered(row, sc);
      ClaimAnswers(After(archived), a, r, blocked, sc);
      Continue(archived, e);
      assert Opening(events, r, waiting, row, sc) == archived + [e];
    }
  }

  lemma Waits(events: seq<Event>, r: nat, waiting: seq<Event>, row: Option<F.Receipt>) returns (leased: seq<Event>)
    requires Opens(events, r, waiting, row)
    ensures leased == events + [Acquire(r)] + waiting && Possible(leased) && row.Some?
    ensures var s, a := After(leased), After(events).now;
      OnRow(s, a, r, row) && s.attempts[a].stage.Leased? && !s.attempts[a].claimed
  {
    hide Next, Enabled, Effect, Possible, After;
    var a, taken := After(events).now, events + [Acquire(r)];
    leased := taken + waiting;
    AcquireOpens(After(events), r);
    Continue(events, Acquire(r));
    OthersKeepAttempt(taken, waiting, a);
    StillPresent(taken, waiting, a);
  }

  /**
   Up to its record a claimed row is still sending or was interrupted, also when the projection ended
   without a known outcome: what the scenario calls interrupted is all that can have happened to it.
   */
  lemma SweptOrSending(events: seq<Event>, during: seq<Event>, a: nat, r: nat, row: Option<F.Receipt>, sc: F.Scenario)
    requires Possible(events) && Possible(events + during)
    requires OnRow(After(events), a, r, row) && After(events).attempts[a].claimed && row.value.state.Sending?
    requires forall i | 0 <= i < |during| :: A.RecordsNothing(during[i], a)
    ensures var t := After(events + during);
      && Present(t, a) && t.attempts[a].row == r && t.attempts[a].claimed
      && (RowOf(t, a).state.Sending? || RowOf(t, a).state.Uncertain?)
      && ((sc.interrupted <==> RowOf(t, a).state.Uncertain?) ==> OnRow(t, a, r, F.Swept(row, sc)))
  {
    hide Next, Enabled, Effect, Possible, After;
    OwnedRowStays(events, during, a);
    StillPresent(events, during, a);
  }

  /**
   What is between the claim and the first closing step. A won claim: any events of any process, the awaits
   of the projection included, that bring the attempt to the end the scenario has. A claim that threw: events
   of others, which leave a row it did not win as it was.
   */
  ghost predicate Projects(
      events: seq<Event>, during: seq<Event>, a: nat, r: nat, row: Option<F.Receipt>, sc: F.Scenario) {
    && Possible(events + during) && (!Closes(row, sc) ==> during == [])
    && (forall i | 0 <= i < |during| :: A.RecordsNothing(during[i], a))
    && (sc.claim.Throws? ==> ByOthers(during, a))
    && var t := After(events + during);
       && (Wins(row, sc) ==> AtEnd(t, a, sc))
       && (Owns(row, sc) ==> (sc.interrupted <==> r in t.rows && t.rows[r].state.Uncertain?))
       && (sc.claim.Throws? && !Owns(row, sc) ==> OnRow(t, a, r, F.Swept(Answered(row, sc), sc)))
  }

  function ClosingStage(row: Option<F.Receipt>, sc: F.Scenario): Stage {
    if sc.claim.Throws? then Finishing(Uncertain) else if Wins(row, sc) then StageAfter(sc.projection) else Releasing
  }

  /** The row as the closing steps find it. */
  function AtClosing(row: Option<F.Receipt>, sc: F.Scenario): Option<F.Receipt> {
    if Closes(row, sc) then F.Swept(Answered(row, sc), sc) else Answered(row, sc)
  }

  lemma EndStage(s: State, a: nat, sc: F.Scenario)
    requires AtEnd(s, a, sc)
    ensures Present(s, a) && s.attempts[a].stage == StageAfter(sc.projection)
    ensures s.attempts[a].stage.Renewing? ==> Answers(s, a, sc)
  {
  }

  lemma ProjectionEnds(begun: seq<Event>, during: seq<Event>, a: nat, r: nat, row: Option<F.Receipt>, sc: F.Scenario)
    requires Possible(begun) && Begins(After(begun), a, r, row, sc) && Projects(begun, during, a, r, row, sc)
    ensures var t := After(begun + during);
      && OnRow(t, a, r, AtClosing(row, sc)) && t.attempts[a].stage == ClosingStage(row, sc)
      && (Wins(row, sc) ==> t.attempts[a].claimed)
      && (t.attempts[a].stage.Renewing? ==> Answers(t, a, sc))
  {
    hide Next, Enabled, Effect, Possible, After, AtEnd, Answers, StageAfter;
    if Closes(row, sc) {
      if Owns(row, sc) {
        SweptOrSending(begun, during, a, r, Answered(row, sc), sc);
      }
      if sc.claim.Throws? {
        OthersKeepAttempt(begun, during, a);
      } else {
        EndStage(After(begun + during), a, sc);
      }
    } else {
      assert begun + during == begun;
    }
  }

  /** The closing steps lead to what the fan-out leaves under the lease, interrupted or not. */
  lemma ClosingConcludes(row: Option<F.Receipt>, sc: F.Scenario, swept: bool)
    requires Closes(row, sc)
    ensures var closing := AtClosing(row, sc);
      FinalRow(if swept then SweptRow(closing) else closing, ClosingStage(row, sc), sc) ==
        F.UnderLease(row, sc.(interrupted := sc.interrupted || swept)).row
  {
    hide F.Conclusion, F.Caught, FinalRow;
    var closing, later := AtClosing(row, sc), sc.(interrupted := sc.interrupted || swept);
    var found := if swept then SweptRow(closing) else closing;
    assert found == F.Swept(Answered(row, sc), later);
    StepsConclude(found, sc);
    SameConclusion(found, sc, later);
  }

  lemma SameConclusion(row: Option<F.Receipt>, sc: F.Scenario, later: F.Scenario)
    requires later == sc.(interrupted := later.interrupted)
    ensures F.Conclusion(row, later) == F.Conclusion(row, sc) && F.Caught(row, later, Unexpected) == F.Caught(row, sc, Unexpected)
  {
  }

  // ---------------------------------------------------------------------------------------------
  // Giving the lease back

  lemma Leaves(s: State, a: nat, landed: bool)
    requires Present(s, a) && s.attempts[a].stage.Releasing?
    ensures var e := if landed then Release(a) else Crash(a); var t := Next(s, e);
      && Enabled(s, e) && a in t.attempts && t.attempts[a].stage.Gone? && t.attempts[a].row == s.attempts[a].row
      && t.rows == s.rows && t.creations == s.creations && Present(t, a)
      && (landed ==> !Holds(t, a, BindingOf(t, a)))
  {
  }

  ghost function Leaving(recorded: seq<Event>, leaving: seq<Event>, a: nat, sc: F.Scenario): seq<Event> {
    recorded + leaving + [if Lands(sc.release) then Release(a) else Crash(a)]
  }

  /** Whatever others do before it, the lease can be given back, and a settled row stays as it is. */
  lemma LeavingFollowsProtocol(recorded: seq<Event>, leaving: seq<Event>, a: nat, sc: F.Scenario)
    requires Possible(recorded) && Possible(recorded + leaving) && ByOthers(leaving, a)
    requires Present(After(recorded), a) && After(recorded).attempts[a].stage.Releasing?
    ensures var all := Leaving(recorded, leaving, a, sc);
      && Possible(all) && Present(After(all), a)
      && var s, t := After(recorded), After(all); var r := s.attempts[a].row;
         && t.attempts[a].row == r && t.attempts[a].stage.Gone? && PostsNothing(s, t, a)
         && (Lands(sc.release) ==> !Holds(t, a, BindingOf(t, a)))
         && (Terminal(s.rows[r].state) ==> t.rows[r] == s.rows[r])
  {
    hide Next, Enabled, Effect, Possible, After, Holds;
    var later, all := recorded + leaving, Leaving(recorded, leaving, a, sc);
    OthersKeepAttempt(recorded, leaving, a);
    StillPresent(recorded, leaving, a);
    Leaves(After(later), a, Lands(sc.release));
    Continue(later, if Lands(sc.release) then Release(a) else Crash(a));
    assert later[..|recorded|] == recorded;
    A.TerminalIsFinal(later, |recorded|, After(recorded).attempts[a].row);
  }

  /**
   A whole visit is a run of the protocol, whatever other processes do between any two of its steps: waiting
   for the claim, during the projection, between the closing steps, and before the lease is given back. Its
   steps are possible, its outcome is the one the imperative fan-out leaves on the row, interrupted or not,
   it posts nothing once the projection is over, and it gives the lease back.
   */
  lemma VisitFollowsProtocol(
      events: seq<Event>, r: nat, row: Option<F.Receipt>, sc: F.Scenario,
      waiting: seq<Event>, during: seq<Event>, gaps: seq<seq<Event>>, leaving: seq<Event>)
      returns (recorded: seq<Event>, swept: bool)
    requires Opens(events, r, waiting, row)
    requires var a, begun := After(events).now, Opening(events, r, waiting, row, sc);
      && Projects(begun, during, a, r, row, sc)
      && GapsFit(begun + during, a, ClosingStage(row, sc), sc, gaps)
      && var closed := Woven(begun + during, a, ClosingStage(row, sc), sc, gaps);
         Possible(closed) ==> Possible(closed + leaving) && ByOthers(leaving, a)
    ensures var a, ended := After(events).now, Opening(events, r, waiting, row, sc) + during;
      && recorded == Woven(ended, a, ClosingStage(row, sc), sc, gaps) && Possible(recorded)
      && OnRow(After(recorded), a, r, F.UnderLease(row, sc.(interrupted := sc.interrupted || swept)).row)
      && var all := Leaving(recorded, leaving, a, sc);
         && Possible(all) && Present(After(all), a)
         && var s, t := After(recorded), After(all);
            && t.attempts[a].row == r && t.attempts[a].stage.Gone? && PostsNothing(After(ended), t, a)
            && (Lands(sc.release) ==> !Holds(t, a, BindingOf(t, a)))
            && (Terminal(s.rows[r].state) ==> t.rows[r] == s.rows[r])
  {
    hide Next, Enabled, Effect, Possible, After, Holds, Opens, Projects, Opening, Woven, OnRow, F.UnderLease;
    OpensPossibly(events, r, waiting, row);
    recorded, swept := VisitRecords(events, r, row, sc, waiting, during, gaps);
    RecordedOnRow(After(recorded), After(events).now, r, F.UnderLease(row, sc.(interrupted := sc.interrupted || swept)).row);
    LeavingFollowsProtocol(recorded, leaving, After(events).now, sc);
  }

  lemma RecordedOnRow(s: State, a: nat, r: nat, row: Option<F.Receipt>)
    requires OnRow(s, a, r, row)
    ensures Present(s, a) && s.attempts[a].row == r
  {
  }

  lemma OpensPossibly(events: seq<Event>, r: nat, waiting: seq<Event>, row: Option<F.Receipt>)
    requires Opens(events, r, waiting, row)
    ensures Possible(events)
  {
  }

  /** The visit up to its record. */
  lemma VisitRecords(
      events: seq<Event>, r: nat, row: Option<F.Receipt>, sc: F.Scenario,
      waiting: seq<Event>, during: seq<Event>, gaps: seq<seq<Event>>)
      returns (recorded: seq<Event>, swept: bool)
    requires Opens(events, r, waiting, row)
    requires var a, begun := After(events).now, Opening(events, r, waiting, row, sc);
      && Projects(begun, during, a, r, row, sc)
      && GapsFit(begun + during, a, ClosingStage(row, sc), sc, gaps)
    ensures var a, ended := After(events).now, Opening(events, r, waiting, row, sc) + during;
      && recorded == Woven(ended, a, ClosingStage(row, sc), sc, gaps) && Possible(ended) && Possible(recorded)
      && OnRow(After(recorded), a, r, F.UnderLease(row, sc.(interrupted := sc.interrupted || swept)).row)
      && After(recorded).attempts[a].stage.Releasing? && PostsNothing(After(ended), After(recorded), a)
  {
    hide Next, Enabled, Effect, Possible, After, Holds, Opens, Begins, Projects, Opening, AtClosing, F.UnderLease, FinalRow,
      Answers, ClosingStage, SweptRow;
    OpensPossibly(events, r, waiting, row);
    var a, begun := After(events).now, Opening(events, r, waiting, row, sc);
    var ended := begun + during;
    OpeningFollowsProtocol(events, r, waiting, row, sc);
    ProjectionIsPossible(begun, during, a, r, row, sc);
    ProjectionEnds(begun, during, a, r, row, sc);
    recorded := Woven(ended, a, ClosingStage(row, sc), sc, gaps);
    if Closes(row, sc) {
      ClosingSteps(row, sc);
      swept := ClosingFollowsProtocol(ended, a, sc, AtClosing(row, sc), gaps);
      ClosingConcludes(row, sc, swept);
    } else {
      swept := false;
      NotClosing(row, sc);
    }
  }

  lemma ClosingSteps(row: Option<F.Receipt>, sc: F.Scenario)
    requires Closes(row, sc)
    ensures StepsLeft(ClosingStage(row, sc)) > 0
    ensures StepsLeft(ClosingStage(row, sc)) > 1 ==> Wins(row, sc)
  {
  }

  lemma ProjectionIsPossible(begun: seq<Event>, during: seq<Event>, a: nat, r: nat, row: Option<F.Receipt>, sc: F.Scenario)
    requires Projects(begun, during, a, r, row, sc)
    ensures Possible(begun + during)
  {
  }

  lemma NotClosing(row: Option<F.Receipt>, sc: F.Scenario)
    requires !Closes(row, sc)
    ensures F.UnderLease(row, sc).row == AtClosing(row, sc) && ClosingStage(row, sc) == Releasing
    ensures sc.(interrupted := sc.interrupted || false) == sc
  {
  }
}
