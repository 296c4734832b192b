/** `surfaceStreamTick` in apps/surface-worker/src/consumer.ts: one consumer of the fan-out stream. */
module StreamConsumer {
  import opened Prelude

  const MAX_ATTEMPTS := 5

  /** What the entry's handler does with it. `Malformed` never reaches the handler. */
  datatype Handling = Malformed | Threw | Handled | Deferred

  /** The store call that throws while the entry is visited; it may have landed all the same. */
  datatype Fault = Seed(landed: bool) | Count(landed: bool) | Forget(landed: bool) | Ack(landed: bool)

  /** One stream entry. `counter` is its retry counter, `runs` counts the runs of its handler. */
  datatype Entry = Entry(pending: bool, counter: Option<nat>, runs: nat)

  const NEW := Entry(true, None, 0)

  datatype Visit = Visit(entry: Entry, acked: bool, threw: bool)

  function Value(counter: Option<nat>): nat {
    if counter.Some? then counter.value else 0
  }

  function Acknowledge(e: Entry, fault: Option<Fault>): Visit {
    match fault
    case Some(Ack(landed)) => Visit(if landed then e.(pending := false) else e, false, true)
    case _ => Visit(e.(pending := false), true, false)
  }

  function VisitEntry(e: Entry, handling: Handling, fault: Option<Fault>): Visit {
    var e' := if handling.Malformed? then e else e.(runs := e.runs + 1);
    if !handling.Deferred? then Acknowledge(e', fault)
    else
      var n := Value(e.counter) + 1;
      match fault
      case Some(Seed(landed)) => Visit(if landed then e'.(counter := Some(n - 1)) else e', false, true)
      case Some(Count(landed)) => Visit(e'.(counter := Some(if landed then n else n - 1)), false, true)
      case _ =>
        if n < MAX_ATTEMPTS then Visit(e'.(counter := Some(n)), false, false)
        else if fault.Some? && fault.value.Forget? then
          Visit(e'.(counter := if fault.value.landed then None else Some(n)), false, true)
        else Acknowledge(e'.(counter := None), fault)
  }

  /** A visit is the last of its entry unless its handler deferred it fewer than five times. */
  predicate IsLast(e: Entry, handling: Handling) {
    !handling.Deferred? || Value(e.counter) + 1 >= MAX_ATTEMPTS
  }

  /** The store call that is to throw is made on this visit. */
  predicate Hits(e: Entry, handling: Handling, fault: Option<Fault>) {
    match fault
    case None => false
    case Some(Ack(_)) => IsLast(e, handling)
    case Some(Forget(_)) => handling.Deferred? && IsLast(e, handling)
    case Some(_) => handling.Deferred?
  }

  /**
   What a visit does to an entry: it throws exactly on a store call it makes, acknowledges exactly if it is
   the last and nothing threw, and the handler ran unless there was nothing to hand to it.
   */
  lemma VisitTells(e: Entry, handling: Handling, fault: Option<Fault>)
    ensures var visit := VisitEntry(e, handling, fault);
      && (visit.threw <==> Hits(e, handling, fault))
      && (visit.acked <==> IsLast(e, handling) && !visit.threw)
      && (visit.entry.pending <==> e.pending && !visit.acked && !(IsLast(e, handling) && fault == Some(Ack(true))))
      && visit.entry.runs == (if handling.Malformed? then e.runs else e.runs + 1)
      && (visit.threw ||
          visit.entry.counter ==
            (if !handling.Deferred? then e.counter
             else if IsLast(e, handling) then None else Some(Value(e.counter) + 1)))
  {
  }

  // ---------------------------------------------------------------------------------------------
  // The life of one entry

  /**
   A consumer takes the entry up, or is done with it, or the retry counter reaches its time to live.
   Several consumers may have it at once, since a pending entry is handed on after a minute.
   */
  datatype Event = Began | Visited(handling: Handling, fault: Option<Fault>) | Expired

  /**
   `underway` visits began and are not done; `overlaps` counts those that began while another was under
   way, or never ended; `faults` counts store calls that threw and counters that expired.
   */
  datatype Life = Life(entry: Entry, underway: nat, overlaps: nat, faults: nat)

  function Step(l: Life, e: Event): Life {
    match e
    case Began =>
      if l.entry.pending then l.(underway := l.underway + 1, overlaps := l.overlaps + if l.underway > 0 then 1 else 0)
      else l
    case Visited(handling, fault) =>
      if l.underway == 0 then l
      else Life(VisitEntry(l.entry, handling, fault).entry, l.underway - 1, l.overlaps, l.faults + if fault.Some? then 1 else 0)
    case Expired => l.(entry := l.entry.(counter := None), faults := l.faults + 1)
  }

  function Live(events: seq<Event>): Life {
    if events == [] then Life(NEW, 0, 0, 0) else var n := |events| - 1; Step(Live(events[..n]), events[n])
  }

  /** Runs of the handler so far, also those that are not over. */
  function Runs(l: Life): nat {
    l.entry.runs + l.underway
  }

  function Capped(counter: Option<nat>): nat {
    if Value(counter) < MAX_ATTEMPTS then Value(counter) else MAX_ATTEMPTS - 1
  }

  lemma {:induction false} RunsAreCounted(events: seq<Event>)
    ensures var l := Live(events);
            && (l.entry.pending ==> l.entry.runs <= MAX_ATTEMPTS * l.faults + Capped(l.entry.counter))
            && l.underway <= l.overlaps + 1
            && Runs(l) <= MAX_ATTEMPTS * (l.faults + 1) + l.overlaps
  {
    if events != [] {
      RunsAreCounted(events[..|events| - 1]);
    }
  }

  /**
   However often an entry is redelivered, its handler runs at most five times, at most five times more for
   every store call that threw and every counter that expired, and at most once more for every visit
   that began while another consumer had the entry.
   */
  lemma HandlerRunsAreBounded(events: seq<Event>)
    ensures Runs(Live(events)) <= 5 * (Live(events).faults + 1) + Live(events).overlaps
    ensures Live(events).faults == 0 && Live(events).entry.runs >= 5 ==> !Live(events).entry.pending
  {
    RunsAreCounted(events);
  }

  /** The visits that were made, in the order in which they ended. */
  function Ended(events: seq<Event>): seq<Handling> {
    if events == [] then []
    else
      var n := |events| - 1;
      Ended(events[..n]) + (if events[n].Visited? && Live(events[..n]).underway > 0 then [events[n].handling] else [])
  }

  /** How many of the visits had something to hand to the handler. */
  function HandlerRuns(visits: seq<Handling>): nat {
    if visits == [] then 0
    else var n := |visits| - 1; HandlerRuns(visits[..n]) + (if visits[n].Malformed? then 0 else 1)
  }

  lemma HandlerRunsGrow(visits: seq<Handling>, handling: Handling)
    ensures HandlerRuns(visits + [handling]) == HandlerRuns(visits) + (if handling.Malformed? then 0 else 1)
  {
    assert (visits + [handling])[..|visits|] == visits;
  }

  predicate AllDeferred(visits: seq<Handling>) {
    forall i | 0 <= i < |visits| :: visits[i].Deferred?
  }

  /** What the visits so far have made of the entry. */
  predicate Accounted(l: Life, visits: seq<Handling>) {
    && l.entry.runs == HandlerRuns(visits)
    && (l.faults == 0 ==> (l.entry.pending <==> |visits| < MAX_ATTEMPTS && AllDeferred(visits)))
    && (l.faults == 0 && l.entry.pending ==> Value(l.entry.counter) == |visits|)
  }

  lemma VisitAccounted(l: Life, visits: seq<Handling>, handling: Handling, fault: Option<Fault>)
    requires Accounted(l, visits) && l.underway > 0
    ensures Accounted(Step(l, Visited(handling, fault)), visits + [handling])
  {
    VisitTells(l.entry, handling, fault);
    HandlerRunsGrow(visits, handling);
    hide VisitEntry, HandlerRuns;
    var more := visits + [handling];
    assert more[|visits|] == handling && forall i | 0 <= i < |visits| :: more[i] == visits[i];
    assert AllDeferred(more) <==> AllDeferred(visits) && handling.Deferred?;
  }

  /**
   As long as no store call throws and no counter expires, an entry is pending exactly while all its visits
   were deferred and there were fewer than five. Its handler ran for every visit but those of a malformed entry.
   */
  lemma {:induction false} PendingExactly(events: seq<Event>)
    ensures var l, visits := Live(events), Ended(events);
      && l.entry.runs == HandlerRuns(visits)
      && (l.faults == 0 ==> (l.entry.pending <==> |visits| < 5 && AllDeferred(visits)))
      && (l.faults == 0 && l.entry.pending ==> Value(l.entry.counter) == |visits|)
  {
    if events != [] {
      hide VisitEntry, HandlerRuns, AllDeferred;
      var n := |events| - 1;
      PendingExactly(events[..n]);
      var l, visits := Live(events[..n]), Ended(events[..n]);
      if events[n].Visited? && l.underway > 0 {
        VisitAccounted(l, visits, events[n].handling, events[n].fault);
        assert Ended(events) == visits + [events[n].handling];
      } else {
        assert Ended(events) == visits;
      }
    } else {
      assert HandlerRuns([]) == 0;
    }
  }

  lemma Append(events: seq<Event>, e: Event)
    ensures Live(events + [e]) == Step(Live(events), e)
  {
    assert (events + [e])[..|events|] == events;
  }

  function Deferrals(times: nat): seq<Event> {
    if times == 0 then [] else Deferrals(times - 1) + [Began] + [Visited(Deferred, None)]
  }

  /** Rounds of five deferrals whose acknowledgement is lost after the counter was dropped. */
  function LostGiveUps(rounds: nat): seq<Event> {
    if rounds == 0 then []
    else LostGiveUps(rounds - 1) + Deferrals(MAX_ATTEMPTS - 1) + [Began] + [Visited(Deferred, Some(Ack(false)))]
  }

  function Beginnings(times: nat): seq<Event> {
    if times == 0 then [] else Beginnings(times - 1) + [Began]
  }

  lemma {:induction false} DeferralsCount(before: seq<Event>, times: nat)
    requires times < MAX_ATTEMPTS && Live(before).entry.pending && Live(before).entry.counter == None
    requires Live(before).underway == 0
    ensures var l := Live(before);
            Live(before + Deferrals(times)) ==
              l.(entry := Entry(true, if times == 0 then None else Some(times), l.entry.runs + times))
  {
    hide Live;
    if times == 0 {
      assert before + Deferrals(0) == before;
    } else {
      var earlier := before + Deferrals(times - 1);
      DeferralsCount(before, times - 1);
      Append(earlier, Began);
      Append(earlier + [Began], Visited(Deferred, None));
      assert before + Deferrals(times) == earlier + [Began] + [Visited(Deferred, None)];
    }
  }

  lemma {:induction false} RoundsCount(rounds: nat)
    ensures Live(LostGiveUps(rounds)) == Life(Entry(true, None, MAX_ATTEMPTS * rounds), 0, 0, rounds)
  {
    if rounds > 0 {
      RoundsCount(rounds - 1);
      hide Live;
      var earlier := LostGiveUps(rounds - 1) + Deferrals(MAX_ATTEMPTS - 1);
      DeferralsCount(LostGiveUps(rounds - 1), MAX_ATTEMPTS - 1);
      Append(earlier, Began);
      Append(earlier + [Began], Visited(Deferred, Some(Ack(false))));
    }
  }

  lemma {:induction false} BeginningsCount(before: seq<Event>, times: nat)
    requires Live(before).entry.pending && Live(before).underway == 0 && Live(before).overlaps == 0
    ensures var l := Live(before);
            Live(before + Beginnings(times)) == l.(underway := times, overlaps := if times == 0 then 0 else times - 1)
  {
    hide Live;
    if times == 0 {
      assert before + Beginnings(0) == before;
    } else {
      BeginningsCount(before, times - 1);
      Append(before + Beginnings(times - 1), Began);
      assert before + Beginnings(times) == before + Beginnings(times - 1) + [Began];
    }
  }

  /**
   The bound is met for every number of faults and overlaps: giving up drops the counter before it
   acknowledges, and several consumers can take up the fifth attempt.
   */
  lemma BoundIsReached(faults: nat, overlaps: nat) returns (events: seq<Event>)
    ensures Live(events).faults == faults && Live(events).overlaps == overlaps
    ensures Runs(Live(events)) == 5 * (faults + 1) + overlaps
  {
    RoundsCount(faults);
    DeferralsCount(LostGiveUps(faults), MAX_ATTEMPTS - 1);
    var deferred := LostGiveUps(faults) + Deferrals(MAX_ATTEMPTS - 1);
    BeginningsCount(deferred, overlaps + 1);
    events := deferred + Beginnings(overlaps + 1);
  }

  /** Rounds of four deferrals, after each of which the counter expires. */
  function Expiries(rounds: nat): seq<Event> {
    if rounds == 0 then [] else Expiries(rounds - 1) + Deferrals(MAX_ATTEMPTS - 1) + [Expired]
  }

  /** An entry whose counter expires in time is never given up: the count starts again. */
  lemma {:induction false} ExpiryStartsAgain(rounds: nat)
    ensures Live(Expiries(rounds)) == Life(Entry(true, None, 4 * rounds), 0, 0, rounds)
  {
    if rounds > 0 {
      hide Live, Deferrals;
      ExpiryStartsAgain(rounds - 1);
      OneExpiry(Expiries(rounds - 1));
    }
  }

  lemma OneExpiry(before: seq<Event>)
    requires Live(before).entry.pending && Live(before).entry.counter == None && Live(before).underway == 0
    ensures var l := Live(before);
      Live(before + Deferrals(MAX_ATTEMPTS - 1) + [Expired]) ==
        l.(entry := Entry(true, None, l.entry.runs + 4), faults := l.faults + 1)
  {
    hide Live, Deferrals;
    DeferralsCount(before, MAX_ATTEMPTS - 1);
    Append(before + Deferrals(MAX_ATTEMPTS - 1), Expired);
  }

  // ---------------------------------------------------------------------------------------------
  // One pass over a batch

  class Group {
    var entries: map<string, Entry>
    /** Entries acknowledged, in order. */
    var acks: seq<string>

    constructor (entries: map<string, Entry>)
      ensures this.entries == entries && acks == []
    {
      this.entries, acks := entries, [];
    }

    /** Set-if-absent and increment of the entry's retry counter; none is left when the call threw. */
    method CountRetry(id: string, fault: Option<Fault>) returns (n: Option<nat>)
      requires id in entries
      modifies this`entries
      ensures n == if fault.Some? && (fault.value.Seed? || fault.value.Count?) then None
                   else Some(Value(old(entries)[id].counter) + 1)
      ensures id in entries && entries == old(entries)[id := entries[id]]
      ensures entries[id] == old(entries)[id].(counter :=
                match fault {
                  case Some(Seed(landed)) => if landed then Some(Value(old(entries)[id].counter)) else old(entries)[id].counter
                  case Some(Count(false)) => Some(Value(old(entries)[id].counter))
                  case _ => Some(Value(old(entries)[id].counter) + 1)
                })
    {
      var entry := entries[id];
      if fault == Some(Seed(false)) {
        return None;
      }
      if entry.counter.None? {
        entry := entry.(counter := Some(0));
        entries := entries[id := entry];
      }
      if fault == Some(Seed(true)) || fault == Some(Count(false)) {
        return None;
      }
      n := Some(entry.counter.value + 1);
      entries := entries[id := entry.(counter := n)];
      if fault == Some(Count(true)) {
        return None;
      }
    }

    method Serve(id: string, handling: Handling, fault: Option<Fault>) returns (acked: bool, threw: bool)
      requires id in entries
      modifies this
      ensures var visit := VisitEntry(old(entries)[id], handling, fault);
              && entries == old(entries)[id := visit.entry]
              && acked == visit.acked && threw == visit.threw
              && acks == if acked then old(acks) + [id] else old(acks)
    {
      acked := !handling.Deferred?;
      if !handling.Malformed? {
        entries := entries[id := entries[id].(runs := entries[id].runs + 1)];
      }
      if handling.Deferred? {
        var n := CountRetry(id, fault);
        if n.None? {
          return false, true;
        }
        if n.value >= MAX_ATTEMPTS {
          if fault != Some(Forget(false)) {
            entries := entries[id := entries[id].(counter := None)];
          }
          if fault.Some? && fault.value.Forget? {
            return false, true;
          }
          acked := true;
        }
      }
      if acked {
        if fault != Some(Ack(false)) {
          entries := entries[id := entries[id].(pending := false)];
        }
        assert entries == entries[id := entries[id]];
        if fault.Some? && fault.value.Ack? {
          return false, true;
        }
        acks := acks + [id];
      }
      threw := false;
    }

    /**
     Every entry of the batch is served as if it were alone, whatever the ones before it did, and the
     count returned is the number of acknowledgements. Only a store call that throws ends the pass.
     */
    method Tick(batch: seq<string>, handlings: seq<Handling>, faults: seq<Option<Fault>>)
      returns (processed: nat, threw: bool, ghost served: nat)
      requires |batch| == |handlings| == |faults|
      requires forall i, j | 0 <= i < j < |batch| :: batch[i] != batch[j]
      requires forall i | 0 <= i < |batch| :: batch[i] in entries
      modifies this
      ensures served <= |batch| && (!threw ==> served == |batch|)
      ensures threw ==> served > 0 && faults[served - 1].Some?
      ensures old(acks) <= acks && |acks| == |old(acks)| + processed
      ensures ServedAlone(old(entries), entries, acks[|old(acks)|..], batch, handlings, faults, served)
    {
      hide *;
      processed, threw, served := 0, false, 0;
      ghost var log := [];
      ServedNone(entries, batch, handlings, faults);
      for i := 0 to |batch|
        invariant served == i
        invariant acks == old(acks) + log && |log| == processed
        invariant ServedAlone(old(entries), entries, log, batch, handlings, faults, i)
      {
        ServedOneMore(old(entries), entries, log, batch, handlings, faults, i);
        var acked;
        acked, threw := Serve(batch[i], handlings[i], faults[i]);
        served := i + 1;
        if acked {
          log := log + [batch[i]];
          processed := processed + 1;
        }
        if threw {
          ThrowsOnFault(old(entries)[batch[i]], handlings[i], faults[i]);
          assert acks[|old(acks)|..] == log;
          return;
        }
      }
      assert acks[|old(acks)|..] == log;
    }
  }

  lemma ThrowsOnFault(e: Entry, handling: Handling, fault: Option<Fault>)
    ensures VisitEntry(e, handling, fault).threw ==> fault.Some?
    ensures VisitEntry(e, handling, fault).acked ==> !VisitEntry(e, handling, fault).threw
  {
  }

  /** From `was`, serving the first `served` entries of the batch made `now` and acknowledged `log`. */
  ghost predicate ServedAlone(
      was: map<string, Entry>, now: map<string, Entry>, log: seq<string>,
      batch: seq<string>, handlings: seq<Handling>, faults: seq<Option<Fault>>, served: nat)
    requires served <= |batch| == |handlings| == |faults|
  {
    && now.Keys == was.Keys
    && (forall i | 0 <= i < served && batch[i] in was ::
          now[batch[i]] == VisitEntry(was[batch[i]], handlings[i], faults[i]).entry
          && (batch[i] in log <==> VisitEntry(was[batch[i]], handlings[i], faults[i]).acked))
    && (forall id | id in was && id !in batch[..served] :: now[id] == was[id])
    && (forall id | id in log :: id in batch[..served])
    && (forall i, j | 0 <= i < j < |log| :: log[i] != log[j])
  }

  lemma ServedNone(
      was: map<string, Entry>, batch: seq<string>, handlings: seq<Handling>, faults: seq<Option<Fault>>)
    requires |batch| == |handlings| == |faults|
    ensures ServedAlone(was, was, [], batch, handlings, faults, 0)
  {
  }

  lemma ServedOneMore(
      was: map<string, Entry>, now: map<string, Entry>, log: seq<string>,
      batch: seq<string>, handlings: seq<Handling>, faults: seq<Option<Fault>>, n: nat)
    requires n < |batch| == |handlings| == |faults| && batch[n] in was
    requires forall i, j | 0 <= i < j < |batch| :: batch[i] != batch[j]
    requires ServedAlone(was, now, log, batch, handlings, faults, n)
    ensures batch[n] in now && now[batch[n]] == was[batch[n]]
    ensures var visit := VisitEntry(was[batch[n]], handlings[n], faults[n]);
            ServedAlone(was, now[batch[n] := visit.entry], if visit.acked then log + [batch[n]] else log,
                        batch, handlings, faults, n + 1)
  {
    hide VisitEntry;
    NotServedBefore(batch, n);
    var id, visit := batch[n], VisitEntry(was[batch[n]], handlings[n], faults[n]);
    assert id !in log;
    var now', log' := now[id := visit.entry], if visit.acked then log + [id] else log;
    forall i | 0 <= i < n + 1 && batch[i] in was
      ensures now'[batch[i]] == VisitEntry(was[batch[i]], handlings[i], faults[i]).entry
      ensures batch[i] in log' <==> VisitEntry(was[batch[i]], handlings[i], faults[i]).acked
    {
    }
    forall other | other in was && other !in batch[..n + 1] ensures now'[other] == was[other] {
    }
  }

  lemma NotServedBefore(batch: seq<string>, n: nat)
    requires n < |batch| && forall i, j | 0 <= i < j < |batch| :: batch[i] != batch[j]
    ensures batch[n] !in batch[..n] && batch[..n + 1] == batch[..n] + [batch[n]]
  {
  }
}
