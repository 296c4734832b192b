/**
 The window guard of the schedulers: `makeRedisWindowGuard` and `runOncePerWindow` in
 apps/triage-worker/src/poller.ts. Any number of replicas ask one key store; times are milliseconds
 of one clock.
 */
module WindowGuard {
  import opened Prelude

  /** A replica read its clock at `stamp` and reached the key store at `at`. */
  datatype Call = Call(stamp: nat, at: nat)

  function Window(t: nat, intervalMs: nat): nat
    requires intervalMs > 0
  {
    t / intervalMs
  }

  function DefaultTtlSec(intervalMs: nat): (ttl: nat)
    ensures ttl > 0 && ttl * 1000 >= intervalMs
    ensures ttl > 1 ==> (ttl - 1) * 1000 < intervalMs
  {
    var ceiling := (intervalMs + 999) / 1000;
    if ceiling > 1 then ceiling else 1
  }

  /** Set-if-absent with an expiry, on the keys' expiry times. */
  predicate Free(keys: map<nat, nat>, window: nat, at: nat) {
    window in keys ==> keys[window] <= at
  }

  function Keys(calls: seq<Call>, intervalMs: nat, ttlSec: nat): map<nat, nat>
    requires intervalMs > 0
  {
    if calls == [] then map[]
    else
      var n := |calls| - 1;
      var keys, window := Keys(calls[..n], intervalMs, ttlSec), Window(calls[n].stamp, intervalMs);
      if Free(keys, window, calls[n].at) then keys[window := calls[n].at + ttlSec * 1000] else keys
  }

  /** Call `i` was admitted. */
  predicate Won(calls: seq<Call>, intervalMs: nat, ttlSec: nat, i: nat)
    requires intervalMs > 0 && i < |calls|
  {
    Free(Keys(calls[..i], intervalMs, ttlSec), Window(calls[i].stamp, intervalMs), calls[i].at)
  }

  ghost predicate Ordered(calls: seq<Call>) {
    forall i, j | 0 <= i < j < |calls| :: calls[i].at <= calls[j].at
  }

  /** Every call reached the key store in the window it computed. */
  ghost predicate InWindow(calls: seq<Call>, intervalMs: nat)
    requires intervalMs > 0
  {
    forall i | 0 <= i < |calls| :: Window(calls[i].stamp, intervalMs) == Window(calls[i].at, intervalMs)
  }

  lemma {:induction false} WinIsRemembered(calls: seq<Call>, intervalMs: nat, ttlSec: nat, i: nat)
    requires intervalMs > 0 && i < |calls| && Ordered(calls) && Won(calls, intervalMs, ttlSec, i)
    ensures var keys, window := Keys(calls, intervalMs, ttlSec), Window(calls[i].stamp, intervalMs);
            window in keys && keys[window] >= calls[i].at + ttlSec * 1000
  {
    var n := |calls| - 1;
    if i < n {
      assert calls[..n][..i] == calls[..i];
      WinIsRemembered(calls[..n], intervalMs, ttlSec, i);
    } else {
      assert calls[..n] == calls[..i];
    }
  }

  /** Two wins of one window are a time to live apart, however late the calls reached the store. */
  lemma WinsAreApart(calls: seq<Call>, intervalMs: nat, ttlSec: nat, i: nat, j: nat)
    requires intervalMs > 0 && i < j < |calls| && Ordered(calls)
    requires Won(calls, intervalMs, ttlSec, i) && Won(calls, intervalMs, ttlSec, j)
    requires Window(calls[i].stamp, intervalMs) == Window(calls[j].stamp, intervalMs)
    ensures calls[j].at >= calls[i].at + ttlSec * 1000
  {
    assert calls[..j][..i] == calls[..i];
    WinIsRemembered(calls[..j], intervalMs, ttlSec, i);
  }

  /** No window is won twice in any run of calls that stay in their window. */
  ghost predicate OncePerWindow(intervalMs: nat, ttlSec: nat)
    requires intervalMs > 0
  {
    forall calls: seq<Call>, i, j ::
      Ordered(calls) && InWindow(calls, intervalMs) && 0 <= i < j < |calls|
      && Won(calls, intervalMs, ttlSec, i) && Won(calls, intervalMs, ttlSec, j) ==>
        Window(calls[i].stamp, intervalMs) != Window(calls[j].stamp, intervalMs)
  }

  lemma SameWindowIsClose(s: nat, t: nat, intervalMs: nat)
    requires intervalMs > 0 && s <= t && Window(s, intervalMs) == Window(t, intervalMs)
    ensures t < s + intervalMs
  {
    assert s == intervalMs * (s / intervalMs) + s % intervalMs;
    assert t == intervalMs * (t / intervalMs) + t % intervalMs;
  }

  /** The guard admits one caller per window exactly if the time to live covers the interval. */
  lemma TtlMustCoverInterval(intervalMs: nat, ttlSec: nat)
    requires intervalMs > 0 && ttlSec > 0
    ensures OncePerWindow(intervalMs, ttlSec) <==> ttlSec * 1000 >= intervalMs
  {
    if ttlSec * 1000 >= intervalMs {
      forall calls: seq<Call>, i: nat, j: nat |
        Ordered(calls) && InWindow(calls, intervalMs) && i < j < |calls|
        && Won(calls, intervalMs, ttlSec, i) && Won(calls, intervalMs, ttlSec, j)
        ensures Window(calls[i].stamp, intervalMs) != Window(calls[j].stamp, intervalMs)
      {
        if Window(calls[i].stamp, intervalMs) == Window(calls[j].stamp, intervalMs) {
          WinsAreApart(calls, intervalMs, ttlSec, i, j);
          SameWindowIsClose(calls[i].at, calls[j].at, intervalMs);
        }
      }
    } else {
      var late := ttlSec * 1000;
      var calls := [Call(0, 0), Call(late, late)];
      assert calls[..0] == [] && calls[..1] == [Call(0, 0)] && calls[..1][..0] == [];
      assert Keys(calls[..0], intervalMs, ttlSec) == map[];
      assert Window(0, intervalMs) == 0 && Window(late, intervalMs) == 0 by {
        SmallDivision(late, intervalMs);
      }
      assert Keys(calls[..1], intervalMs, ttlSec) == map[0 := late];
      assert Won(calls, intervalMs, ttlSec, 0) && Won(calls, intervalMs, ttlSec, 1);
      assert Ordered(calls) && InWindow(calls, intervalMs);
    }
  }

  lemma SmallDivision(t: nat, d: nat)
    requires t < d
    ensures t / d == 0
  {
  }

  /** With the default time to live no window is ever won twice. */
  lemma DefaultTtlCovers(intervalMs: nat)
    requires intervalMs > 0
    ensures OncePerWindow(intervalMs, DefaultTtlSec(intervalMs))
  {
    TtlMustCoverInterval(intervalMs, DefaultTtlSec(intervalMs));
  }

  /** Two calls won one window. */
  ghost predicate WonTwice(calls: seq<Call>, intervalMs: nat, ttlSec: nat)
    requires intervalMs > 0
  {
    exists i, j | 0 <= i < j < |calls| ::
      && Window(calls[i].stamp, intervalMs) == Window(calls[j].stamp, intervalMs)
      && Won(calls, intervalMs, ttlSec, i) && Won(calls, intervalMs, ttlSec, j)
  }

  /** Two calls for one window reached the store a time to live apart, whether they won or not. */
  ghost predicate CalledApart(calls: seq<Call>, intervalMs: nat, ttlSec: nat)
    requires intervalMs > 0
  {
    exists i, j | 0 <= i < j < |calls| ::
      && Window(calls[i].stamp, intervalMs) == Window(calls[j].stamp, intervalMs)
      && calls[j].at >= calls[i].at + ttlSec * 1000
  }

  /** A key in the store is the trace of a win, whose expiry it has. */
  lemma {:induction false} KeyHasWinner(calls: seq<Call>, intervalMs: nat, ttlSec: nat, window: nat) returns (w: nat)
    requires intervalMs > 0 && window in Keys(calls, intervalMs, ttlSec)
    ensures w < |calls| && Won(calls, intervalMs, ttlSec, w) && Window(calls[w].stamp, intervalMs) == window
    ensures Keys(calls, intervalMs, ttlSec)[window] == calls[w].at + ttlSec * 1000
    decreases |calls|
  {
    var n := |calls| - 1;
    if Window(calls[n].stamp, intervalMs) == window && Won(calls, intervalMs, ttlSec, n) {
      return n;
    }
    w := KeyHasWinner(calls[..n], intervalMs, ttlSec, window);
    assert calls[..n][..w] == calls[..w];
  }

  lemma {:induction false} CalledIsKnown(calls: seq<Call>, intervalMs: nat, ttlSec: nat, i: nat)
    requires intervalMs > 0 && i < |calls|
    ensures Window(calls[i].stamp, intervalMs) in Keys(calls, intervalMs, ttlSec)
    decreases |calls|
  {
    var n := |calls| - 1;
    if i < n {
      CalledIsKnown(calls[..n], intervalMs, ttlSec, i);
    }
  }

  /** Once a time to live has passed since the call `i`, its window has been won twice, at the latest by `j`. */
  lemma LateCallWinsAgain(calls: seq<Call>, intervalMs: nat, ttlSec: nat, i: nat, j: nat)
    requires intervalMs > 0 && Ordered(calls) && i < j < |calls|
    requires Window(calls[i].stamp, intervalMs) == Window(calls[j].stamp, intervalMs)
    requires calls[j].at >= calls[i].at + ttlSec * 1000
    ensures exists v, w | 0 <= v < w <= j ::
              && Window(calls[v].stamp, intervalMs) == Window(calls[w].stamp, intervalMs) == Window(calls[i].stamp, intervalMs)
              && Won(calls, intervalMs, ttlSec, v) && Won(calls, intervalMs, ttlSec, w)
  {
    hide Keys, Window;
    var window := Window(calls[i].stamp, intervalMs);
    assert calls[..j][i] == calls[i] && calls[..i + 1][i] == calls[i];
    CalledIsKnown(calls[..j], intervalMs, ttlSec, i);
    var w := KeyHasWinner(calls[..j], intervalMs, ttlSec, window);
    assert calls[..j][..w] == calls[..w];
    if !Won(calls, intervalMs, ttlSec, j) {
      CalledIsKnown(calls[..i + 1], intervalMs, ttlSec, i);
      var v := KeyHasWinner(calls[..i + 1], intervalMs, ttlSec, window);
      assert calls[..i + 1][..v] == calls[..v];
      assert v <= i < w;
    }
  }

  /**
   In any run, whatever the time to live and however late its calls, a window is won twice exactly if two
   calls for it reach the store a time to live apart.
   */
  lemma WonTwiceExactly(calls: seq<Call>, intervalMs: nat, ttlSec: nat)
    requires intervalMs > 0 && Ordered(calls)
    ensures WonTwice(calls, intervalMs, ttlSec) <==> CalledApart(calls, intervalMs, ttlSec)
  {
    hide Keys, Won, Window;
    if WonTwice(calls, intervalMs, ttlSec) {
      var i, j :| 0 <= i < j < |calls|
        && Window(calls[i].stamp, intervalMs) == Window(calls[j].stamp, intervalMs)
        && Won(calls, intervalMs, ttlSec, i) && Won(calls, intervalMs, ttlSec, j);
      WinsAreApart(calls, intervalMs, ttlSec, i, j);
    }
    if CalledApart(calls, intervalMs, ttlSec) {
      var i, j :| 0 <= i < j < |calls|
        && Window(calls[i].stamp, intervalMs) == Window(calls[j].stamp, intervalMs)
        && calls[j].at >= calls[i].at + ttlSec * 1000;
      LateCallWinsAgain(calls, intervalMs, ttlSec, i, j);
    }
  }

  lemma KeysStep(calls: seq<Call>, call: Call, intervalMs: nat, ttlSec: nat)
    requires intervalMs > 0
    ensures var keys, window := Keys(calls, intervalMs, ttlSec), Window(call.stamp, intervalMs);
            && (Won(calls + [call], intervalMs, ttlSec, |calls|) <==> Free(keys, window, call.at))
            && Keys(calls + [call], intervalMs, ttlSec) ==
               if Free(keys, window, call.at) then keys[window := call.at + ttlSec * 1000] else keys
  {
    assert (calls + [call])[..|calls|] == calls;
  }

  /** One key prefix of the shared store. `calls` is everything asked of it so far. */
  class Guard {
    const intervalMs: nat
    const ttlSec: nat
    var keys: map<nat, nat>
    ghost var calls: seq<Call>

    ghost predicate Valid()
      reads this
    {
      intervalMs > 0 && Ordered(calls) && keys == Keys(calls, intervalMs, ttlSec)
    }

    constructor (intervalMs: nat, windowTtlSec: Option<nat>)
      requires intervalMs > 0 && (windowTtlSec.Some? ==> windowTtlSec.value > 0)
      ensures Valid() && calls == [] && this.intervalMs == intervalMs
      ensures ttlSec == if windowTtlSec.Some? then windowTtlSec.value else DefaultTtlSec(intervalMs)
    {
      this.intervalMs := intervalMs;
      ttlSec := if windowTtlSec.Some? then windowTtlSec.value else DefaultTtlSec(intervalMs);
      keys, calls := map[], [];
    }

    method Enter(call: Call) returns (won: bool)
      requires Valid() && (calls != [] ==> calls[|calls| - 1].at <= call.at)
      modifies this
      ensures Valid() && calls == old(calls) + [call]
      ensures won <==> Won(calls, intervalMs, ttlSec, |calls| - 1)
    {
      hide Keys, Won, Window;
      KeysStep(calls, call, intervalMs, ttlSec);
      var window := Window(call.stamp, intervalMs);
      won := window !in keys || keys[window] <= call.at;
      if won {
        keys := keys[window := call.at + ttlSec * 1000];
      }
      calls := calls + [call];
    }
  }
}
