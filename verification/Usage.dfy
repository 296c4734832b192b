/** The usage totals of one run: `UsageCollector` in apps/triage-worker/src/llm-runtime.ts. */
module Usage {
  import opened Prelude

  const TWO_53 := 0x20_0000_0000_0000
  const MAX_SAFE_INTEGER := TWO_53 - 1

  /** A number of the host language: `Other` is a fraction, an infinity or not a number. */
  datatype Number = Whole(n: int) | Other

  /** `Number.isSafeInteger`, section 21.1.2.5 of ECMA-262, and not negative. */
  predicate Countable(x: Number) {
    x.Whole? && 0 <= x.n <= MAX_SAFE_INTEGER
  }

  /**
   The double nearest to a sum of two safe integers: beyond two to the 53rd only even numbers are
   doubles, and a tie goes to the one whose half is even.
   */
  function Rounded(x: int): (r: int)
    requires 0 <= x < 2 * TWO_53
    ensures x - 1 <= r <= x + 1
    ensures x > TWO_53 ==> r % 2 == 0
  {
    if x <= TWO_53 then x
    else
      var half := x / 2;
      2 * (if x == 2 * half || half % 2 == 0 then half else half + 1)
  }

  /** A rounded sum never lands in the safe range from outside it, and inside it is exact. */
  lemma RoundingKeepsSafety(x: int)
    requires 0 <= x < 2 * TWO_53
    ensures Rounded(x) <= MAX_SAFE_INTEGER <==> x <= MAX_SAFE_INTEGER
    ensures x <= MAX_SAFE_INTEGER ==> Rounded(x) == x
  {
  }

  /** A provider's estimate; `NotFinite` covers infinities and not-a-numbers. */
  datatype Amount = Finite(usd: real) | NotFinite

  datatype Sample = Sample(
    requestCount: Option<Number>, input: Number, output: Number, cacheRead: Number, cacheWrite: Number,
    cost: Option<Amount>)

  datatype Counts = Counts(requests: nat, input: nat, output: nat, cacheRead: nat, cacheWrite: nat)

  const ZERO := Counts(0, 0, 0, 0, 0)

  datatype Totals = Totals(
    counts: Counts, cost: Option<real>, reported: bool, valid: bool, telemetryComplete: Option<bool>)

  // ---------------------------------------------------------------------------------------------
  // What is counted

  function Plus(a: Counts, b: Counts): Counts {
    Counts(a.requests + b.requests, a.input + b.input, a.output + b.output,
           a.cacheRead + b.cacheRead, a.cacheWrite + b.cacheWrite)
  }

  predicate Safe(c: Counts) {
    && c.requests <= MAX_SAFE_INTEGER && c.input <= MAX_SAFE_INTEGER && c.output <= MAX_SAFE_INTEGER
    && c.cacheRead <= MAX_SAFE_INTEGER && c.cacheWrite <= MAX_SAFE_INTEGER
  }

  function Requests(s: Sample): Number {
    if s.requestCount.Some? then s.requestCount.value else Whole(1)
  }

  /** The numbers of a sample are counts, it stands for a request and reports a token, and its cost is one. */
  predicate WellFormed(s: Sample) {
    && Countable(Requests(s)) && Requests(s).n > 0
    && Countable(s.input) && Countable(s.output) && Countable(s.cacheRead) && Countable(s.cacheWrite)
    && s.input.n + s.output.n + s.cacheRead.n + s.cacheWrite.n > 0
    && (s.cost.Some? ==> s.cost.value.Finite? && s.cost.value.usd >= 0.0)
  }

  function CountsOf(s: Sample): Counts
    requires WellFormed(s)
  {
    Counts(Requests(s).n, s.input.n, s.output.n, s.cacheRead.n, s.cacheWrite.n)
  }

  /** The exact sum of the counts of a list of samples. */
  function Sum(kept: seq<Sample>): Counts
    requires forall i | 0 <= i < |kept| :: WellFormed(kept[i])
  {
    if kept == [] then ZERO else Plus(Sum(kept[..|kept| - 1]), CountsOf(kept[|kept| - 1]))
  }

  /** The samples that count: well formed ones, as long as no exact total leaves the safe range. */
  function Kept(samples: seq<Sample>): (kept: seq<Sample>)
    ensures forall i | 0 <= i < |kept| :: WellFormed(kept[i])
    ensures Safe(Sum(kept))
    ensures |kept| <= |samples|
  {
    if samples == [] then []
    else
      var before, s := Kept(samples[..|samples| - 1]), samples[|samples| - 1];
      if WellFormed(s) && Safe(Plus(Sum(before), CountsOf(s))) then
        assert (before + [s])[..|before|] == before;
        before + [s]
      else before
  }

  /** A count, or zero for what is none. */
  function Worth(x: Number): nat {
    if x.Whole? && x.n >= 0 then x.n else 0
  }

  function Column(samples: seq<Sample>, of: Sample -> nat): seq<nat> {
    seq(|samples|, i requires 0 <= i < |samples| => of(samples[i]))
  }

  function Added(column: seq<nat>): nat {
    if column == [] then 0 else Added(column[..|column| - 1]) + column[|column| - 1]
  }

  lemma AddedColumn(samples: seq<Sample>, of: Sample -> nat)
    ensures Added(Column(samples, of)) ==
      if samples == [] then 0 else Added(Column(samples[..|samples| - 1], of)) + of(samples[|samples| - 1])
  {
    if samples != [] {
      assert Column(samples, of)[..|samples| - 1] == Column(samples[..|samples| - 1], of);
    }
  }

  /** A sample without a count of its own stands for one request. */
  const REQUESTS: Sample -> nat := (s: Sample) => if s.requestCount.Some? then Worth(s.requestCount.value) else 1
  const INPUT: Sample -> nat := (s: Sample) => Worth(s.input)
  const OUTPUT: Sample -> nat := (s: Sample) => Worth(s.output)
  const CACHE_READ: Sample -> nat := (s: Sample) => Worth(s.cacheRead)
  const CACHE_WRITE: Sample -> nat := (s: Sample) => Worth(s.cacheWrite)

  /** Every total is the sum of its own column of the samples that count. */
  lemma {:induction false} TotalsAreColumns(kept: seq<Sample>)
    requires forall i | 0 <= i < |kept| :: WellFormed(kept[i])
    ensures Sum(kept) == Counts(Added(Column(kept, REQUESTS)), Added(Column(kept, INPUT)), Added(Column(kept, OUTPUT)),
                                Added(Column(kept, CACHE_READ)), Added(Column(kept, CACHE_WRITE)))
  {
    AddedColumn(kept, REQUESTS);
    AddedColumn(kept, INPUT);
    AddedColumn(kept, OUTPUT);
    AddedColumn(kept, CACHE_READ);
    AddedColumn(kept, CACHE_WRITE);
    if kept != [] {
      TotalsAreColumns(kept[..|kept| - 1]);
    }
  }

  /** A sample that does not say how many requests it stands for is taken as if it said one. */
  lemma UncountedIsOne(s: Sample)
    requires s.requestCount.None?
    ensures var one := s.(requestCount := Some(Whole(1)));
      && (WellFormed(s) <==> WellFormed(one)) && (WellFormed(s) ==> CountsOf(s) == CountsOf(one))
  {
  }

  /** Every sample that counts stands for a request and reports a token. */
  lemma {:induction false} EverySampleWeighs(kept: seq<Sample>)
    requires forall i | 0 <= i < |kept| :: WellFormed(kept[i])
    ensures var c := Sum(kept); c.requests >= |kept| && c.input + c.output + c.cacheRead + c.cacheWrite >= |kept|
    ensures CostOf(kept).None? <==> forall i | 0 <= i < |kept| :: kept[i].cost.None?
    ensures Spent(kept) >= 0.0 && (if CostOf(kept).Some? then CostOf(kept).value else 0.0) == Spent(kept)
  {
    if kept != [] {
      EverySampleWeighs(kept[..|kept| - 1]);
      assert WellFormed(kept[|kept| - 1]);
    }
  }

  /** What the samples that have a cost cost together. */
  function Spent(kept: seq<Sample>): real {
    if kept == [] then 0.0
    else
      var cost := kept[|kept| - 1].cost;
      Spent(kept[..|kept| - 1]) + if cost.Some? && cost.value.Finite? then cost.value.usd else 0.0
  }

  /** The cost of the samples that count, if any of them has one. */
  function CostOf(kept: seq<Sample>): Option<real>
    requires forall i | 0 <= i < |kept| :: WellFormed(kept[i])
  {
    if kept == [] then None
    else
      var before, s := CostOf(kept[..|kept| - 1]), kept[|kept| - 1];
      assert WellFormed(s);
      if s.cost.None? then before
      else Some((if before.Some? then before.value else 0.0) + s.cost.value.usd)
  }

  /** The totals after a list of samples. */
  function Collected(samples: seq<Sample>, telemetryComplete: Option<bool>): Totals {
    Totals(Sum(Kept(samples)), CostOf(Kept(samples)), samples != [], Kept(samples) == samples, telemetryComplete)
  }

  lemma {:induction false} KeptAll(samples: seq<Sample>)
    ensures |Kept(samples)| == |samples| <==> Kept(samples) == samples
  {
    if samples != [] && |Kept(samples)| == |samples| {
      KeptAll(samples[..|samples| - 1]);
      assert samples == samples[..|samples| - 1] + [samples[|samples| - 1]];
    }
  }

  lemma KeptStep(samples: seq<Sample>, s: Sample)
    ensures var counts := WellFormed(s) && Safe(Plus(Sum(Kept(samples)), CountsOf(s)));
            && Kept(samples + [s]) == (if counts then Kept(samples) + [s] else Kept(samples))
            && (counts ==> Sum(Kept(samples + [s])) == Plus(Sum(Kept(samples)), CountsOf(s)))
            && (Kept(samples + [s]) == samples + [s] <==> Kept(samples) == samples && counts)
  {
    assert (samples + [s])[..|samples|] == samples;
    var kept := Kept(samples);
    assert (kept + [s])[..|kept|] == kept;
    KeptAll(samples);
    KeptAll(samples + [s]);
  }

  /** What was counted stays counted, and one rejected sample makes the totals invalid for good. */
  lemma {:induction false} InvalidityStays(samples: seq<Sample>, more: seq<Sample>, t: Option<bool>)
    ensures Kept(samples) <= Kept(samples + more)
    ensures !Collected(samples, t).valid ==> !Collected(samples + more, t).valid
  {
    hide Kept, Sum, CostOf;
    if more == [] {
      assert samples + more == samples;
    } else {
      var m := |more| - 1;
      InvalidityStays(samples, more[..m], t);
      assert samples + more == (samples + more[..m]) + [more[m]];
      KeptStep(samples + more[..m], more[m]);
    }
  }

  class UsageCollector {
    var counts: Counts
    var cost: Option<real>
    var reported: bool
    var valid: bool
    var telemetryComplete: Option<bool>
    /** Everything observed so far. */
    ghost var samples: seq<Sample>

    ghost predicate Valid()
      reads this
    {
      Totals(counts, cost, reported, valid, telemetryComplete) == Collected(samples, telemetryComplete)
      && (cost.Some? ==> cost.value >= 0.0)
    }

    constructor ()
      ensures Valid() && samples == [] && telemetryComplete == None
    {
      counts, cost, reported, valid, telemetryComplete, samples := ZERO, None, false, true, None, [];
    }

    /** The condition under which a sample is turned away, and the totals it would lead to. */
    method Judge(sample: Sample) returns (rejected: bool, next: Counts, nextCost: Option<real>)
      requires Safe(counts) && (cost.Some? ==> cost.value >= 0.0)
      ensures rejected <==> !WellFormed(sample) || !Safe(Plus(counts, CountsOf(sample)))
      ensures !rejected ==> next == Plus(counts, CountsOf(sample))
      ensures !rejected ==> nextCost == if sample.cost.None? then cost
                                        else Some((if cost.Some? then cost.value else 0.0) + sample.cost.value.usd)
    {
      rejected, next, nextCost := true, counts, cost;
      var given := [Requests(sample), sample.input, sample.output, sample.cacheRead, sample.cacheWrite];
      if !Countable(given[0]) || !Countable(given[1]) || !Countable(given[2]) || !Countable(given[3]) || !Countable(given[4]) {
        return;
      }
      if given[0].n == 0 || (given[1].n == 0 && given[2].n == 0 && given[3].n == 0 && given[4].n == 0) {
        return;
      }
      next := Counts(
        Rounded(counts.requests + given[0].n), Rounded(counts.input + given[1].n), Rounded(counts.output + given[2].n),
        Rounded(counts.cacheRead + given[3].n), Rounded(counts.cacheWrite + given[4].n));
      if !Safe(next) {
        return;
      }
      if sample.cost.Some? {
        if sample.cost.value.NotFinite? || sample.cost.value.usd < 0.0 {
          return;
        }
        nextCost := Some((if cost.Some? then cost.value else 0.0) + sample.cost.value.usd);
      }
      rejected := false;
    }

    method Add(sample: Sample)
      requires Valid()
      modifies this
      ensures Valid() && samples == old(samples) + [sample] && telemetryComplete == old(telemetryComplete)
    {
      ghost var kept := Kept(samples);
      KeptStep(samples, sample);
      hide Kept, Safe, Plus, CountsOf;
      var rejected, next, nextCost := Judge(sample);
      reported, samples := true, samples + [sample];
      if rejected {
        valid := false;
        return;
      }
      counts, cost := next, nextCost;
      assert (kept + [sample])[..|kept|] == kept;
    }

    method SetTelemetryComplete(complete: bool)
      requires Valid()
      modifies this`telemetryComplete
      ensures Valid() && telemetryComplete == Some(complete)
    {
      telemetryComplete := Some(complete);
    }

    /** An invalid total hides its cost, but not its counts. */
    method Snapshot() returns (totals: Totals)
      requires Valid()
      ensures Safe(totals.counts) && totals.counts == Sum(Kept(samples))
      ensures totals.counts.requests <= 9_007_199_254_740_991 && totals.counts.input <= 9_007_199_254_740_991
      ensures totals.valid <==> Kept(samples) == samples
      ensures totals.cost == if Kept(samples) == samples then CostOf(samples) else None
      ensures totals.reported <==> samples != []
      ensures totals.telemetryComplete == telemetryComplete
    {
      totals := Totals(counts, if valid then cost else None, reported, valid, telemetryComplete);
    }
  }
}
