/**
 `fanoutHubMessage` in apps/surface-worker/src/fanout.ts: one message visited at every destination its
 outbox captured, in one worker. What other processes do to the destination's row, and what the ports
 answer, is a `Scenario` per destination; the delivery protocol has all of them interleaved.
 */
module Fanout {
  import opened Prelude
  import opened Destinations
  import opened Projection
  import opened Deliveries
  import opened DeliveryProtocol

  const OPEN_LOCK_TRIES := 20
  const OPEN_LOCK_DELAY_MS := 100
  const SAFE_RETRY_DELAY_MS := 5_000

  /** The delivery row of one destination. It may not be claimed before `notBefore`. */
  datatype Receipt = Receipt(state: Delivery, notBefore: int)

  type Ending = p: Phase | p.Returned? || p.Threw? witness Threw(Unexpected)

  /** What other processes did to a queued row before the visit: another worker owns it, or it was blocked. */
  datatype Meanwhile = Untouched | TakenElsewhere | BlockedElsewhere

  /**
   What one destination meets. `interrupted`: between claim and record the claimed row was swept as
   stale, disconnected, merged or split away. `busy` tries find its lease taken; try
   `lockFault.value.0` throws.
   */
  datatype Scenario = Scenario(
    clock: int, meanwhile: Meanwhile, interrupted: bool, adapter: bool, resolution: Resolution, busy: nat, lockFault: Option<(nat, Port)>,
    visible: bool, projection: Ending, heartbeatLost: bool, renewal: Fetch<bool>, retryAfter: nat,
    block: Port, putBack: Port, claim: Port, finish: Port, giveUp: Port, retry: Port, release: Port)

  /** `LeftToOwner` also covers a claim that found nothing to claim; `Abandoned`, a lock store that threw. */
  datatype Fate = BlockedBefore | PutBack | LeftToOwner | Attempted | Abandoned

  /** `projected`: Slack was addressed. `escaped`: an error left the function. `held`: the lease was not given back. */
  datatype Visit = Visit(row: Option<Receipt>, fate: Fate, projected: bool, escaped: bool, held: bool)

  function Moved(row: Option<Receipt>, from: Delivery, to: Receipt): Option<Receipt> {
    if row.Some? && row.value.state == from then Some(to) else row
  }

  function Ended(row: Option<Receipt>, outcome: Outcome, port: Port): Option<Receipt> {
    if Lands(port) && row.Some? then Moved(row, Sending, row.value.(state := outcome)) else row
  }

  predicate Due(row: Option<Receipt>, sc: Scenario) {
    row.Some? && row.value.state.Queued? && row.value.notBefore <= sc.clock
  }

  /** The claim of a due row; a row of an archived incident is blocked instead. */
  function Claimed(row: Option<Receipt>, sc: Scenario): Option<Receipt> {
    if row.None? then row
    else if !sc.visible then Moved(row, Queued, row.value.(state := Blocked))
    else if Due(row, sc) then Some(row.value.(state := Sending))
    else row
  }

  /** The row as the visit finds it. */
  function Found(row: Option<Receipt>, sc: Scenario): Option<Receipt> {
    if row.None? || sc.meanwhile.Untouched? then row
    else Moved(row, Queued, row.value.(state := if sc.meanwhile.TakenElsewhere? then Sending else Blocked))
  }

  /** The row as the attempt finds it once its projection is over. */
  function Swept(row: Option<Receipt>, sc: Scenario): Option<Receipt> {
    if row.Some? && sc.interrupted then Moved(row, Sending, row.value.(state := Uncertain)) else row
  }

  function PutOff(row: Option<Receipt>, from: Delivery, after: int, port: Port): Option<Receipt> {
    if Lands(port) then Moved(row, from, Receipt(Queued, after)) else row
  }

  // ---------------------------------------------------------------------------------------------
  // One destination

  /** The catch clause: what it leaves on the row, and whether another error escapes from it. */
  function Caught(row: Option<Receipt>, sc: Scenario, error: Error): (Option<Receipt>, bool) {
    match StageAfter(Threw(error))
    case Finishing(Blocked) => (Ended(row, Blocked, sc.finish), sc.finish.Throws?)
    case Finishing(outcome) => (Ended(row, outcome, sc.giveUp), false)
    case _ => (PutOff(row, Sending, sc.clock + sc.retryAfter, sc.retry), sc.retry.Throws?)
  }

  /** From the won claim on. */
  function Conclusion(row: Option<Receipt>, sc: Scenario): (Option<Receipt>, bool) {
    if sc.projection.Threw? then Caught(row, sc, sc.projection.error)
    else if sc.heartbeatLost || sc.renewal != Got(true) then Caught(row, sc, Unexpected)
    else
      var recorded := Ended(row, if sc.projection.result.skipped then Skipped else Accepted, sc.finish);
      if sc.finish.Works? then (recorded, false) else Caught(recorded, sc, Unexpected)
  }

  function UnderLease(row: Option<Receipt>, sc: Scenario): Visit {
    var row' := if Lands(sc.claim) then Claimed(row, sc) else row;
    if sc.claim.Throws? then
      var (end, escaped) := Caught(Swept(row', sc), sc, Unexpected);
      Visit(end, Attempted, false, escaped, true)
    else if !sc.visible || !Due(row, sc) then Visit(row', LeftToOwner, false, false, true)
    else
      var (end, escaped) := Conclusion(Swept(row', sc), sc);
      Visit(end, Attempted, true, escaped, true)
  }

  /** The visit of a row as it finds it. */
  function Visited(row: Option<Receipt>, sc: Scenario): Visit {
    if !sc.adapter || sc.resolution.NotConnected? || sc.resolution.NoBinding? then
      var blocked := if Lands(sc.block) && row.Some? then Moved(row, Queued, row.value.(state := Blocked)) else row;
      Visit(blocked, BlockedBefore, false, sc.block.Throws?, false)
    else if sc.resolution.Unreachable? then
      Visit(PutOff(row, Queued, sc.clock + SAFE_RETRY_DELAY_MS, sc.putBack), PutBack, false, false, false)
    else if sc.lockFault.Some? && sc.lockFault.value.0 < OPEN_LOCK_TRIES && sc.lockFault.value.0 <= sc.busy then
      Visit(row, Abandoned, false, true, sc.lockFault.value.0 == sc.busy && sc.lockFault.value.1 == Throws(true))
    else if sc.busy >= OPEN_LOCK_TRIES then
      Visit(PutOff(row, Queued, sc.clock + SAFE_RETRY_DELAY_MS, sc.putBack), PutBack, false, false, false)
    else
      var visit := UnderLease(row, sc);
      visit.(escaped := visit.escaped || sc.release.Throws?, held := !Lands(sc.release))
  }

  function Settle(row: Option<Receipt>, sc: Scenario): Visit {
    Visited(Found(row, sc), sc)
  }

  /** One of the tries for the lease throws before the lease is won. */
  predicate LockBreaks(sc: Scenario) {
    sc.lockFault.Some? && sc.lockFault.value.0 < OPEN_LOCK_TRIES && sc.lockFault.value.0 <= sc.busy
  }

  // ---------------------------------------------------------------------------------------------
  // All destinations

  /** The tables and what happened after the first `visited` destinations. */
  datatype Tour = Tour(
    receipts: map<string, Receipt>, visited: nat, deferred: bool, escaped: bool, projected: seq<string>, held: set<string>)

  function Lookup(receipts: map<string, Receipt>, binding: string): Option<Receipt> {
    if binding in receipts then Some(receipts[binding]) else None
  }

  function Store(receipts: map<string, Receipt>, binding: string, row: Option<Receipt>): map<string, Receipt> {
    if row.Some? then receipts[binding := row.value] else receipts
  }

  function Stop(t: Tour, binding: string, sc: Scenario): Tour {
    var visit := Settle(Lookup(t.receipts, binding), sc);
    Tour(Store(t.receipts, binding, visit.row), t.visited + 1, t.deferred || visit.fate.PutBack?, visit.escaped,
         if visit.projected then t.projected + [binding] else t.projected,
         if visit.held then t.held + {binding} else t.held)
  }

  /** The first `n` destinations in turn, up to the first escaped error. */
  function Visiting(receipts: map<string, Receipt>, targets: seq<string>, scs: seq<Scenario>, n: nat): Tour
    requires n <= |targets| == |scs|
  {
    if n == 0 then Tour(receipts, 0, false, false, [], {})
    else
      var before := Visiting(receipts, targets, scs, n - 1);
      if before.escaped then before else Stop(before, targets[n - 1], scs[n - 1])
  }

  /** The visit of destination `i` if it were the only one. */
  function Alone(receipts: map<string, Receipt>, targets: seq<string>, scs: seq<Scenario>, i: nat): Visit
    requires i < |targets| == |scs|
  {
    Settle(Lookup(receipts, targets[i]), scs[i])
  }

  ghost predicate RowsAsAlone(receipts: map<string, Receipt>, targets: seq<string>, scs: seq<Scenario>, t: Tour)
    requires t.visited <= |targets| == |scs|
  {
    && (forall i | 0 <= i < t.visited :: Lookup(t.receipts, targets[i]) == Alone(receipts, targets, scs, i).row)
    && (forall k | k !in targets[..t.visited] :: Lookup(t.receipts, k) == Lookup(receipts, k))
  }

  ghost predicate AnswersAsAlone(receipts: map<string, Receipt>, targets: seq<string>, scs: seq<Scenario>, t: Tour)
    requires t.visited <= |targets| == |scs|
  {
    && (t.deferred <==> exists i | 0 <= i < t.visited :: Alone(receipts, targets, scs, i).fate.PutBack?)
    && (t.escaped <==> exists i | 0 <= i < t.visited :: Alone(receipts, targets, scs, i).escaped)
    && (forall i | 0 <= i < t.visited - 1 :: !Alone(receipts, targets, scs, i).escaped)
  }

  ghost predicate EffectsAsAlone(receipts: map<string, Receipt>, targets: seq<string>, scs: seq<Scenario>, t: Tour)
    requires t.visited <= |targets| == |scs|
  {
    && Distinct(t.projected)
    && (forall i | 0 <= i < t.visited :: targets[i] in t.projected <==> Alone(receipts, targets, scs, i).projected)
    && (forall i | 0 <= i < t.visited :: targets[i] in t.held <==> Alone(receipts, targets, scs, i).held)
    && (forall k | k in t.projected || k in t.held :: k in targets[..t.visited])
  }

  lemma SettleKeepsRow(row: Option<Receipt>, sc: Scenario)
    ensures Settle(row, sc).row.Some? <==> row.Some?
  {
  }

  lemma StopReadsOwnRow(
      receipts: map<string, Receipt>, targets: seq<string>, scs: seq<Scenario>, before: Tour, n: nat)
    requires n == before.visited < |targets| == |scs| && Distinct(targets)
    requires RowsAsAlone(receipts, targets, scs, before)
    ensures Settle(Lookup(before.receipts, targets[n]), scs[n]) == Alone(receipts, targets, scs, n)
    ensures targets[n] !in targets[..n] && targets[..n + 1] == targets[..n] + [targets[n]]
  {
  }

  lemma StopKeepsRows(receipts: map<string, Receipt>, targets: seq<string>, scs: seq<Scenario>, before: Tour, n: nat)
    requires n == before.visited < |targets| == |scs| && Distinct(targets)
    requires RowsAsAlone(receipts, targets, scs, before)
    ensures RowsAsAlone(receipts, targets, scs, Stop(before, targets[n], scs[n]))
  {
    hide Settle, Visiting;
    StopReadsOwnRow(receipts, targets, scs, before, n);
    SettleKeepsRow(Lookup(before.receipts, targets[n]), scs[n]);
    var t := Stop(before, targets[n], scs[n]);
    forall k | k !in targets[..n + 1] ensures Lookup(t.receipts, k) == Lookup(receipts, k) {
      assert k !in targets[..n] && k != targets[n];
    }
  }

  lemma StopKeepsAnswers(receipts: map<string, Receipt>, targets: seq<string>, scs: seq<Scenario>, before: Tour, n: nat)
    requires n == before.visited < |targets| == |scs| && Distinct(targets) && !before.escaped
    requires RowsAsAlone(receipts, targets, scs, before) && AnswersAsAlone(receipts, targets, scs, before)
    ensures AnswersAsAlone(receipts, targets, scs, Stop(before, targets[n], scs[n]))
  {
    hide Settle, RowsAsAlone;
    StopReadsOwnRow(receipts, targets, scs, before, n);
  }

  lemma StopKeepsEffects(receipts: map<string, Receipt>, targets: seq<string>, scs: seq<Scenario>, before: Tour, n: nat)
    requires n == before.visited < |targets| == |scs| && Distinct(targets)
    requires RowsAsAlone(receipts, targets, scs, before) && EffectsAsAlone(receipts, targets, scs, before)
    ensures EffectsAsAlone(receipts, targets, scs, Stop(before, targets[n], scs[n]))
  {
    hide Settle, RowsAsAlone;
    StopReadsOwnRow(receipts, targets, scs, before, n);
    var t := Stop(before, targets[n], scs[n]);
    forall i | 0 <= i < n
      ensures targets[i] in t.projected <==> targets[i] in before.projected
      ensures targets[i] in t.held <==> targets[i] in before.held
    {
    }
  }

  /**
   What happens at one destination depends on that destination only: its row ends as if it had been
   visited alone, rows of others are not touched, Slack is addressed for it at most once, and only an
   escaped error keeps later ones from their turn.
   */
  lemma {:induction false} FatesAreIndependent(
      receipts: map<string, Receipt>, targets: seq<string>, scs: seq<Scenario>, n: nat)
    requires n <= |targets| == |scs| && Distinct(targets)
    ensures var t := Visiting(receipts, targets, scs, n);
            && t.visited <= n && (!t.escaped ==> t.visited == n)
            && RowsAsAlone(receipts, targets, scs, t)
            && AnswersAsAlone(receipts, targets, scs, t)
            && EffectsAsAlone(receipts, targets, scs, t)
  {
    if n > 0 {
      FatesAreIndependent(receipts, targets, scs, n - 1);
      hide Settle, RowsAsAlone, AnswersAsAlone, EffectsAsAlone;
      var before := Visiting(receipts, targets, scs, n - 1);
      if !before.escaped {
        StopKeepsRows(receipts, targets, scs, before, n - 1);
        StopKeepsAnswers(receipts, targets, scs, before, n - 1);
        StopKeepsEffects(receipts, targets, scs, before, n - 1);
      }
    }
  }

  // ---------------------------------------------------------------------------------------------
  // What a message comes to, said of what its destinations meet

  /** There is no adapter, token or binding to address the destination with. */
  predicate Unaddressed(sc: Scenario) {
    !sc.adapter || sc.resolution.NotConnected? || sc.resolution.NoBinding?
  }

  /** The destination could not be resolved for now, or its lease was taken for the whole two seconds. */
  predicate Deferrable(sc: Scenario) {
    && sc.adapter
    && (sc.resolution.Unreachable? || (sc.resolution.Resolved? && sc.busy >= OPEN_LOCK_TRIES && !LockBreaks(sc)))
  }

  predicate LockBroke(sc: Scenario) {
    sc.adapter && sc.resolution.Resolved? && LockBreaks(sc)
  }

  predicate Leased(sc: Scenario) {
    sc.adapter && sc.resolution.Resolved? && sc.busy < OPEN_LOCK_TRIES && !LockBreaks(sc)
  }

  /** A due row nobody else took: the claim moves it if it takes effect. */
  predicate Claimable(row: Receipt, sc: Scenario) {
    row.state.Queued? && sc.meanwhile.Untouched? && sc.visible && row.notBefore <= sc.clock
  }

  /** This worker addressed Slack for the row. */
  predicate Projects(row: Receipt, sc: Scenario) {
    Leased(sc) && sc.claim.Works? && Claimable(row, sc)
  }

  /** The outcome the projection and the lease call for. */
  function Verdict(sc: Scenario): Outcome {
    if sc.projection.Threw? then
      if sc.projection.error.ProjectionBlocked? then Blocked
      else if sc.projection.error == SlackFailed(Refused) then Rejected else Uncertain
    else if sc.heartbeatLost || sc.renewal != Got(true) then Uncertain
    else if sc.projection.result.skipped then Skipped else Accepted
  }

  predicate RateLimited(sc: Scenario) {
    sc.projection == Threw(SlackFailed(Retryable))
  }

  /** A row this worker projected: recorded, put off, swept, or left as `sending` when nothing could be recorded. */
  function Projected(row: Receipt, sc: Scenario): Receipt {
    if sc.interrupted then row.(state := Uncertain)
    else if RateLimited(sc) then
      if Lands(sc.retry) then Receipt(Queued, sc.clock + sc.retryAfter) else row.(state := Sending)
    else if (Verdict(sc).Blocked? || Verdict(sc).Accepted? || Verdict(sc).Skipped?) && Lands(sc.finish) then
      row.(state := Verdict(sc))
    else if !Verdict(sc).Blocked? && Lands(sc.giveUp) then
      row.(state := if Verdict(sc).Rejected? then Rejected else Uncertain)
    else row.(state := Sending)
  }

  /** The row as other processes leave it to the visit. */
  function Met(row: Receipt, sc: Scenario): Receipt {
    match sc.meanwhile
    case Untouched => row
    case TakenElsewhere => if row.state.Queued? then row.(state := Sending) else row
    case BlockedElsewhere => if row.state.Queued? then row.(state := Blocked) else row
  }

  /** Where a row ends. */
  function ComesTo(row: Receipt, sc: Scenario): Receipt {
    var met := Met(row, sc);
    if Terminal(met.state) then met
    else if met.state.Queued? then
      if Unaddressed(sc) then if Lands(sc.block) then met.(state := Blocked) else met
      else if Deferrable(sc) then if Lands(sc.putBack) then Receipt(Queued, sc.clock + SAFE_RETRY_DELAY_MS) else met
      else if !Leased(sc) || !Lands(sc.claim) then met
      else if !sc.visible then met.(state := Blocked)
      else if met.notBefore > sc.clock then met
      else if sc.claim.Works? then Projected(met, sc)
      else if sc.interrupted || Lands(sc.giveUp) then met.(state := Uncertain) else met.(state := Sending)
    else if Leased(sc) && sc.claim.Throws? && (sc.interrupted || Lands(sc.giveUp)) then met.(state := Uncertain)
    else met
  }

  /** A call that nothing guards throws on the way of the visit. */
  predicate Escapes(row: Option<Receipt>, sc: Scenario) {
    || (Unaddressed(sc) && sc.block.Throws?)
    || LockBroke(sc)
    || (Leased(sc) && sc.release.Throws?)
    || (row.Some? && Projects(row.value, sc) && sc.projection == Threw(ProjectionBlocked) && sc.finish.Throws?)
    || (row.Some? && Projects(row.value, sc) && RateLimited(sc) && sc.retry.Throws?)
  }

  /** The lease of the destination stays with this worker until it expires. */
  predicate KeepsLease(sc: Scenario) {
    (Leased(sc) && !Lands(sc.release)) || (LockBroke(sc) && sc.lockFault.value.0 == sc.busy && sc.lockFault.value.1 == Throws(true))
  }

  /** One visit, read off what it meets. */
  lemma VisitComesTo(row: Option<Receipt>, sc: Scenario)
    ensures var visit := Settle(row, sc);
      && visit.row == (if row.Some? then Some(ComesTo(row.value, sc)) else None)
      && (visit.projected <==> row.Some? && Projects(row.value, sc))
      && (visit.escaped <==> Escapes(row, sc))
      && (visit.fate.PutBack? <==> Deferrable(sc))
      && (visit.held <==> KeepsLease(sc))
  {
    hide Caught, Conclusion, Projected;
    if row.Some? && Projects(row.value, sc) {
      ConclusionComesTo(row.value, sc);
    } else if Leased(sc) && sc.claim.Throws? {
      ClaimBreaks(if Lands(sc.claim) then Claimed(Found(row, sc), sc) else Found(row, sc), sc);
    }
  }

  /** From the claim on, the branches of the attempt lead to the verdict. */
  lemma ConclusionComesTo(row: Receipt, sc: Scenario)
    requires Projects(row, sc)
    ensures var (end, escaped) := Conclusion(Swept(Some(row.(state := Sending)), sc), sc);
      && end == Some(Projected(row, sc))
      && (escaped <==>
            (sc.projection == Threw(ProjectionBlocked) && sc.finish.Throws?) || (RateLimited(sc) && sc.retry.Throws?))
  {
  }

  /** A claim that threw gives its row up, won or not. */
  lemma ClaimBreaks(row: Option<Receipt>, sc: Scenario)
    ensures Caught(Swept(row, sc), sc, Unexpected) ==
      (if row.Some? && row.value.state.Sending? && (sc.interrupted || Lands(sc.giveUp))
       then Some(row.value.(state := Uncertain)) else row, false)
  {
  }

  /**
   After a whole message: every visited destination ends as its own scenario has it, whatever the others
   met; the message is deferred exactly if some visited destination was; the function throws exactly if an
   unguarded call of a visited destination did, and then that destination is the last one visited.
   */
  lemma MessageFates(receipts: map<string, Receipt>, targets: seq<string>, scs: seq<Scenario>, n: nat)
    requires n <= |targets| == |scs| && Distinct(targets)
    ensures var t := Visiting(receipts, targets, scs, n);
      && t.visited <= n && (!t.escaped ==> t.visited == n)
      && (forall i | 0 <= i < t.visited ::
            var row := Lookup(receipts, targets[i]);
            && Lookup(t.receipts, targets[i]) == (if row.Some? then Some(ComesTo(row.value, scs[i])) else None)
            && (targets[i] in t.projected <==> row.Some? && Projects(row.value, scs[i]))
            && (targets[i] in t.held <==> KeepsLease(scs[i])))
      && (t.deferred <==> exists i | 0 <= i < t.visited :: Deferrable(scs[i]))
      && (t.escaped <==> exists i | 0 <= i < t.visited :: Escapes(Lookup(receipts, targets[i]), scs[i]))
      && (forall i | 0 <= i < t.visited - 1 :: !Escapes(Lookup(receipts, targets[i]), scs[i]))
      && (forall k | k !in targets[..t.visited] :: Lookup(t.receipts, k) == Lookup(receipts, k))
      && (forall k | k in t.projected || k in t.held :: k in targets[..t.visited])
  {
    FatesAreIndependent(receipts, targets, scs, n);
    hide Settle, ComesTo, Projects, Escapes, Deferrable, KeepsLease;
    var t := Visiting(receipts, targets, scs, n);
    forall i | 0 <= i < t.visited
      ensures var visit, row := Alone(receipts, targets, scs, i), Lookup(receipts, targets[i]);
        && visit.row == (if row.Some? then Some(ComesTo(row.value, scs[i])) else None)
        && (visit.projected <==> row.Some? && Projects(row.value, scs[i]))
        && (visit.escaped <==> Escapes(row, scs[i]))
        && (visit.fate.PutBack? <==> Deferrable(scs[i]))
        && (visit.held <==> KeepsLease(scs[i]))
    {
      VisitComesTo(Lookup(receipts, targets[i]), scs[i]);
    }
  }

  /**
   What the table amounts to: a settled row never changes, Slack is addressed only for a due row nobody else
   took, only a rate limit hands such a row back, and a row is put off to a later time only.
   */
  lemma RowsAreSafe(row: Receipt, sc: Scenario)
    ensures Terminal(row.state) ==> ComesTo(row, sc) == row
    ensures Projects(row, sc) ==> row.state.Queued? && row.notBefore <= sc.clock && !Unaddressed(sc) && !Deferrable(sc)
    ensures Projects(row, sc) && ComesTo(row, sc).state.Queued? ==> RateLimited(sc) && ComesTo(row, sc).notBefore == sc.clock + sc.retryAfter
    ensures ComesTo(row, sc).state.Queued? && ComesTo(row, sc) != row ==>
              && row.state.Queued?
              && ComesTo(row, sc).notBefore == sc.clock + if Projects(row, sc) then sc.retryAfter else 5_000
  {
  }

  // ---------------------------------------------------------------------------------------------
  // The loop

  /** Where the targets come from: the outbox scan brings them along, a stream entry has them looked up. */
  function Targets(
      mirrored: bool, recovery: Option<seq<string>>, tenant: Fetch<Option<string>>, listed: Fetch<seq<string>>): seq<string> {
    if !mirrored then []
    else if recovery.Some? then recovery.value
    else if tenant.Got? && tenant.value.Some? && listed.Got? then listed.value
    else []
  }

  /** Reading back what was stored, and storing over it. Rows are changed, not added. */
  lemma StoreOver(receipts: map<string, Receipt>, binding: string, row: Option<Receipt>, row': Option<Receipt>)
    requires row.Some? <==> binding in receipts
    ensures Lookup(Store(receipts, binding, row), binding) == row
    ensures (row'.Some? <==> row.Some?) ==>
              Store(Store(receipts, binding, row), binding, row') == Store(receipts, binding, row')
  {
  }

  lemma ConclusionKeepsRow(row: Option<Receipt>, sc: Scenario)
    ensures Swept(row, sc).Some? <==> row.Some?
    ensures Caught(Swept(row, sc), sc, Unexpected).0.Some? <==> row.Some?
    ensures Conclusion(Swept(row, sc), sc).0.Some? <==> row.Some?
  {
  }

  /** The claim and what follows it are stored over the row the attempt began with. */
  lemma ClaimKeepsRow(receipts: map<string, Receipt>, binding: string, sc: Scenario)
    ensures var row := Lookup(receipts, binding);
            var row' := if Lands(sc.claim) then Claimed(row, sc) else row;
            var end := if sc.claim.Throws? then Caught(Swept(row', sc), sc, Unexpected).0 else Conclusion(Swept(row', sc), sc).0;
            && Lookup(Store(receipts, binding, row'), binding) == row'
            && Store(Store(receipts, binding, row'), binding, end) == Store(receipts, binding, end)
  {
    var row := Lookup(receipts, binding);
    var row' := if Lands(sc.claim) then Claimed(row, sc) else row;
    assert row'.Some? <==> binding in receipts;
    ConclusionKeepsRow(row', sc);
    hide Caught, Conclusion, Swept, Claimed, Store;
    StoreOver(receipts, binding, row', Caught(Swept(row', sc), sc, Unexpected).0);
    StoreOver(receipts, binding, row', Conclusion(Swept(row', sc), sc).0);
  }

  lemma KeepsRow(receipts: map<string, Receipt>, binding: string, sc: Scenario)
    ensures var row := Lookup(receipts, binding);
            && (Found(row, sc).Some? <==> binding in receipts)
            && (Settle(row, sc).row.Some? <==> Found(row, sc).Some?)
            && Settle(row, sc) == Visited(Found(row, sc), sc)
  {
    SettleKeepsRow(Lookup(receipts, binding), sc);
  }

  class Worker {
    var receipts: map<string, Receipt>
    /** The bindings whose Slack conversation was addressed, in order. */
    var projected: seq<string>
    /** The bindings whose lease this worker took and did not give back. */
    var held: set<string>

    constructor (receipts: map<string, Receipt>)
      ensures this.receipts == receipts && projected == [] && held == {}
    {
      this.receipts, projected, held := receipts, [], {};
    }

    /** What another process did before the visit of the row. */
    method Meet(binding: string, sc: Scenario)
      modifies this`receipts
      ensures receipts == Store(old(receipts), binding, Found(Lookup(old(receipts), binding), sc))
    {
      if binding in receipts && receipts[binding].state.Queued? && !sc.meanwhile.Untouched? {
        receipts := receipts[binding := receipts[binding].(state := if sc.meanwhile.TakenElsewhere? then Sending else Blocked)];
      }
    }

    /** What another process did to the row while the projection ran. */
    method Sweep(binding: string, sc: Scenario)
      modifies this`receipts
      ensures receipts == Store(old(receipts), binding, Swept(Lookup(old(receipts), binding), sc))
    {
      if binding in receipts && receipts[binding].state.Sending? && sc.interrupted {
        receipts := receipts[binding := receipts[binding].(state := Uncertain)];
      }
    }

    method BlockDelivery(binding: string, port: Port) returns (threw: bool)
      modifies this`receipts
      ensures threw == port.Throws?
      ensures var row := Lookup(old(receipts), binding);
              receipts == Store(old(receipts), binding,
                if Lands(port) && row.Some? then Moved(row, Queued, row.value.(state := Blocked)) else row)
    {
      if Lands(port) && binding in receipts && receipts[binding].state.Queued? {
        receipts := receipts[binding := receipts[binding].(state := Blocked)];
      }
      threw := port.Throws?;
    }

    method ScheduleRetry(binding: string, from: Delivery, after: int, port: Port) returns (threw: bool)
      modifies this`receipts
      ensures threw == port.Throws?
      ensures receipts == Store(old(receipts), binding, PutOff(Lookup(old(receipts), binding), from, after, port))
    {
      if Lands(port) && binding in receipts && receipts[binding].state == from {
        receipts := receipts[binding := Receipt(Queued, after)];
      }
      threw := port.Throws?;
    }

    method FinishDelivery(binding: string, outcome: Outcome, port: Port) returns (threw: bool)
      modifies this`receipts
      ensures threw == port.Throws?
      ensures receipts == Store(old(receipts), binding, Ended(Lookup(old(receipts), binding), outcome, port))
    {
      if Lands(port) && binding in receipts && receipts[binding].state.Sending? {
        receipts := receipts[binding := receipts[binding].(state := outcome)];
      }
      threw := port.Throws?;
    }

    method ClaimDelivery(binding: string, sc: Scenario) returns (threw: bool, won: bool)
      modifies this`receipts
      ensures threw == sc.claim.Throws?
      ensures !threw ==> (won <==> sc.visible && Due(Lookup(old(receipts), binding), sc))
      ensures receipts == Store(old(receipts), binding,
                if Lands(sc.claim) then Claimed(Lookup(old(receipts), binding), sc) else Lookup(old(receipts), binding))
    {
      threw, won := sc.claim.Throws?, false;
      if Lands(sc.claim) && binding in receipts && receipts[binding].state.Queued? {
        if !sc.visible {
          receipts := receipts[binding := receipts[binding].(state := Blocked)];
        } else if receipts[binding].notBefore <= sc.clock {
          receipts, won := receipts[binding := receipts[binding].(state := Sending)], true;
        }
      }
    }

    /** Twenty tries, a tenth of a second apart. */
    method AcquireBlocking(binding: string, sc: Scenario) returns (threw: bool, won: bool, slept: nat)
      modifies this`held
      ensures threw <==> sc.lockFault.Some? && sc.lockFault.value.0 < OPEN_LOCK_TRIES && sc.lockFault.value.0 <= sc.busy
      ensures !threw ==> (won <==> sc.busy < 20)
      ensures threw ==> !won
      ensures held == if won || (threw && sc.lockFault.value.0 == sc.busy && sc.lockFault.value.1 == Throws(true))
                      then old(held) + {binding} else old(held)
      ensures !threw && !won ==> slept == 2_000
      ensures won ==> slept == 100 * sc.busy
    {
      slept := 0;
      for i := 0 to OPEN_LOCK_TRIES
        invariant i <= sc.busy && slept == OPEN_LOCK_DELAY_MS * i && held == old(held)
        invariant sc.lockFault.Some? ==> i <= sc.lockFault.value.0
      {
        var free := i == sc.busy;
        if sc.lockFault.Some? && sc.lockFault.value.0 == i {
          if free && sc.lockFault.value.1 == Throws(true) {
            held := held + {binding};
          }
          return true, false, slept;
        }
        if free {
          held := held + {binding};
          return false, true, slept;
        }
        slept := slept + OPEN_LOCK_DELAY_MS;
      }
      return false, false, slept;
    }

    method Catch(binding: string, sc: Scenario, error: Error) returns (escaped: bool)
      modifies this`receipts
      ensures var (row, escapes) := Caught(Lookup(old(receipts), binding), sc, error);
              receipts == Store(old(receipts), binding, row) && escaped == escapes
    {
      match error
      case ProjectionBlocked =>
        escaped := FinishDelivery(binding, Blocked, sc.finish);
      case SlackFailed(Retryable) =>
        escaped := ScheduleRetry(binding, Sending, sc.clock + sc.retryAfter, sc.retry);
      case _ =>
        var _ := FinishDelivery(binding, if error == SlackFailed(Refused) then Rejected else Uncertain, sc.giveUp);
        escaped := false;
    }

    /** The try block under the lease. */
    method AttemptUnderLease(binding: string, sc: Scenario) returns (fate: Fate, escaped: bool)
      modifies this`receipts, this`projected
      ensures var visit := UnderLease(Lookup(old(receipts), binding), sc);
              && receipts == Store(old(receipts), binding, visit.row)
              && fate == visit.fate && escaped == visit.escaped
              && projected == if visit.projected then old(projected) + [binding] else old(projected)
    {
      hide Caught, Conclusion, Swept, Claimed, Store;
      ghost var was := receipts;
      ClaimKeepsRow(was, binding, sc);
      var threw, claimed := ClaimDelivery(binding, sc);
      if !threw && !claimed {
        return LeftToOwner, false;
      }
      fate := Attempted;
      if !threw {
        projected := projected + [binding];
      }
      escaped := AfterClaim(binding, sc, threw);
    }

    /** From the claim on, whether it was won or threw. */
    method AfterClaim(binding: string, sc: Scenario, threw: bool) returns (escaped: bool)
      modifies this`receipts
      ensures var row := Swept(Lookup(old(receipts), binding), sc);
              var (end, escapes) := if threw then Caught(row, sc, Unexpected) else Conclusion(row, sc);
              receipts == Store(old(receipts), binding, end) && escaped == escapes
    {
      hide Caught, Conclusion, Swept;
      ghost var row := Lookup(receipts, binding);
      ConclusionKeepsRow(row, sc);
      StoreOver(receipts, binding, Swept(row, sc), Caught(Swept(row, sc), sc, Unexpected).0);
      StoreOver(receipts, binding, Swept(row, sc), Conclusion(Swept(row, sc), sc).0);
      Sweep(binding, sc);
      if threw {
        escaped := Catch(binding, sc, Unexpected);
      } else {
        escaped := Conclude(binding, sc);
      }
    }

    method Conclude(binding: string, sc: Scenario) returns (escaped: bool)
      modifies this`receipts
      ensures var (row, escapes) := Conclusion(Lookup(old(receipts), binding), sc);
              receipts == Store(old(receipts), binding, row) && escaped == escapes
    {
      if sc.projection.Threw? {
        escaped := Catch(binding, sc, sc.projection.error);
      } else if sc.heartbeatLost || sc.renewal != Got(true) {
        escaped := Catch(binding, sc, Unexpected);
      } else {
        escaped := false;
        var threw := FinishDelivery(binding, if sc.projection.result.skipped then Skipped else Accepted, sc.finish);
        if threw {
          escaped := Catch(binding, sc, Unexpected);
        }
      }
    }

    method VisitTarget(binding: string, sc: Scenario) returns (fate: Fate, escaped: bool)
      modifies this
      ensures var visit := Settle(Lookup(old(receipts), binding), sc);
              && receipts == Store(old(receipts), binding, visit.row)
              && fate == visit.fate && escaped == visit.escaped
              && projected == (if visit.projected then old(projected) + [binding] else old(projected))
              && (binding !in old(held) ==> held == if visit.held then old(held) + {binding} else old(held))
    {
      hide *;
      ghost var row := Lookup(receipts, binding);
      KeepsRow(receipts, binding, sc);
      StoreOver(receipts, binding, Found(row, sc), Settle(row, sc).row);
      Meet(binding, sc);
      fate, escaped := VisitRow(binding, sc);
    }

    method VisitRow(binding: string, sc: Scenario) returns (fate: Fate, escaped: bool)
      modifies this
      ensures var visit := Visited(Lookup(old(receipts), binding), sc);
              && receipts == Store(old(receipts), binding, visit.row)
              && fate == visit.fate && escaped == visit.escaped
              && projected == (if visit.projected then old(projected) + [binding] else old(projected))
              && (binding !in old(held) ==> held == if visit.held then old(held) + {binding} else old(held))
    {
      if !sc.adapter || sc.resolution.NotConnected? || sc.resolution.NoBinding? {
        escaped := BlockDelivery(binding, sc.block);
        return BlockedBefore, escaped;
      }
      if sc.resolution.Unreachable? {
        var _ := ScheduleRetry(binding, Queued, sc.clock + SAFE_RETRY_DELAY_MS, sc.putBack);
        return PutBack, false;
      }
      var threw, won, _ := AcquireBlocking(binding, sc);
      if threw {
        return Abandoned, true;
      }
      if !won {
        var _ := ScheduleRetry(binding, Queued, sc.clock + SAFE_RETRY_DELAY_MS, sc.putBack);
        return PutBack, false;
      }
      fate, escaped := AttemptUnderLease(binding, sc);
      if Lands(sc.release) {
        held := held - {binding};
      }
      escaped := escaped || sc.release.Throws?;
    }

    /**
     One message. It reports false exactly when a destination was put back before its claim; an error
     escapes exactly when an unguarded call of a visited destination threw.
     */
    method FanoutMessage(
        mirrored: bool, recovery: Option<seq<string>>, tenant: Fetch<Option<string>>, listed: Fetch<seq<string>>,
        scs: seq<Scenario>)
      returns (threw: bool, handled: bool)
      requires |scs| == |Targets(mirrored, recovery, tenant, listed)|
      requires Distinct(Targets(mirrored, recovery, tenant, listed)) && projected == [] && held == {}
      modifies this
      ensures var targets := Targets(mirrored, recovery, tenant, listed);
              var t := Visiting(old(receipts), targets, scs, |targets|);
              && receipts == t.receipts && projected == t.projected && held == t.held
              && threw == t.escaped
              && (!threw ==> (handled <==> forall i | 0 <= i < |targets| :: !Deferrable(scs[i])))
      ensures !mirrored || (recovery.None? && !(tenant.Got? && tenant.value.Some? && listed.Got?)) ==>
                handled && !threw && receipts == old(receipts) && projected == [] && held == {}
    {
      handled, threw := true, false;
      if !mirrored {
        return;
      }
      if recovery.None? && (tenant.Failed? || tenant.value.None? || listed.Failed?) {
        return;
      }
      var targets := if recovery.Some? then recovery.value else listed.value;
      var deferred := false;
      for i := 0 to |targets|
        invariant Visiting(old(receipts), targets, scs, i) == Tour(receipts, i, deferred, false, projected, held)
      {
        FatesAreIndependent(old(receipts), targets, scs, i);
        assert targets[i] !in held;
        var fate, escaped := VisitTarget(targets[i], scs[i]);
        deferred := deferred || fate.PutBack?;
        if escaped {
          EscapeStops(old(receipts), targets, scs, i + 1, |targets|);
          return true, false;
        }
      }
      MessageFates(old(receipts), targets, scs, |targets|);
      handled := !deferred;
    }
  }

  lemma {:induction false} EscapeStops(
      receipts: map<string, Receipt>, targets: seq<string>, scs: seq<Scenario>, i: nat, n: nat)
    requires i <= n <= |targets| == |scs| && Visiting(receipts, targets, scs, i).escaped
    ensures Visiting(receipts, targets, scs, n) == Visiting(receipts, targets, scs, i)
  {
    hide Stop;
    if i < n {
      EscapeStops(receipts, targets, scs, i, n - 1);
    }
  }
}
