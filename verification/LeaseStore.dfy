/**
 Token-checked leases in a shared key store: apps/surface-worker/src/lock.ts and, without the renewal,
 apps/triage-worker/src/lock.ts. Each script runs atomically; an expired key reads as absent.
 */
module LeaseStore {
  import opened Prelude

  datatype Lease = Lease(token: nat, deadline: nat)

  predicate HeldBy<K>(leases: map<K, Lease>, key: K, token: nat, clock: nat) {
    key in leases && leases[key].token == token && clock < leases[key].deadline
  }

  predicate IsFree<K>(leases: map<K, Lease>, key: K, clock: nat) {
    key in leases ==> leases[key].deadline <= clock
  }

  /** The key from now on carries `token` for a full time to live. */
  function Granted<K>(leases: map<K, Lease>, key: K, token: nat, clock: nat, ttlMs: nat): map<K, Lease> {
    leases[key := Lease(token, clock + ttlMs)]
  }

  /** The renew script: the deadline moves only under the caller's own live token. */
  function Renewed<K>(leases: map<K, Lease>, key: K, token: nat, clock: nat, ttlMs: nat): map<K, Lease> {
    if HeldBy(leases, key, token, clock) then Granted(leases, key, token, clock, ttlMs) else leases
  }

  /** The release script: the key goes only under the caller's own live token. */
  function Released<K>(leases: map<K, Lease>, key: K, token: nat, clock: nat): map<K, Lease> {
    if HeldBy(leases, key, token, clock) then leases - {key} else leases
  }

  class RedisLock<K(==)> {
    const ttlMs: nat
    var leases: map<K, Lease>
    var issued: nat

    constructor (ttlMs: nat)
      ensures this.ttlMs == ttlMs && leases == map[] && issued == 0
    {
      this.ttlMs, leases, issued := ttlMs, map[], 0;
    }

    /** Set-if-absent at time `clock`. Every try draws a new token, also one that loses. */
    method Acquire(key: K, clock: nat) returns (token: Option<nat>)
      modifies this
      ensures token.Some? <==> IsFree(old(leases), key, clock)
      ensures token.Some? ==> token.value == old(issued)
      ensures leases == if token.Some? then Granted(old(leases), key, old(issued), clock, ttlMs) else old(leases)
      ensures issued == old(issued) + 1
    {
      var mine := issued;
      issued := issued + 1;
      if key in leases && clock < leases[key].deadline {
        return None;
      }
      leases := leases[key := Lease(mine, clock + ttlMs)];
      return Some(mine);
    }

    method Renew(key: K, token: nat, clock: nat) returns (renewed: bool)
      modifies this`leases
      ensures renewed <==> HeldBy(old(leases), key, token, clock)
      ensures leases == Renewed(old(leases), key, token, clock, ttlMs)
    {
      renewed := key in leases && clock < leases[key].deadline && leases[key].token == token;
      if renewed {
        leases := leases[key := Lease(token, clock + ttlMs)];
      }
    }

    method Release(key: K, token: nat, clock: nat)
      modifies this`leases
      ensures leases == Released(old(leases), key, token, clock)
    {
      if key in leases && clock < leases[key].deadline && leases[key].token == token {
        leases := leases - {key};
      }
    }
  }
}
