/** Where a delivery goes: `memoFor` in fanout-support.ts and the destination resolution of the fan-out. */
module Destinations {
  import opened Prelude
  import Separators

  datatype Target = Target(tenant: string, surface: string, binding: string)

  /** The channel and root message of a bound conversation. */
  datatype Address = Address(channel: string, thread: string)

  /** A read that may throw. */
  datatype Fetch<+T> = Failed | Got(value: T)

  datatype Resolution = Unreachable | NotConnected | NoBinding | Resolved(token: string, address: Address)

  const MEMO_MAX_ENTRIES := 10_000

  function Key(t: Target): string {
    t.tenant + ":" + t.surface + ":" + t.binding
  }

  /** Tenant ids are UUIDs and surface names are fixed words: neither has a colon. */
  predicate Plain(t: Target) {
    ':' !in t.tenant && ':' !in t.surface
  }

  lemma KeyIsInjective(t: Target, u: Target)
    requires Plain(t) && Plain(u) && Key(t) == Key(u)
    ensures t == u
  {
    var x, y := t.surface + [':'] + t.binding, u.surface + [':'] + u.binding;
    assert Key(t) == t.tenant + [':'] + x && Key(u) == u.tenant + [':'] + y;
    Separators.JoinIsInjective(':', t.tenant, x, u.tenant, y);
    Separators.JoinIsInjective(':', t.surface, t.binding, u.surface, u.binding);
  }

  class Memo {
    /** The immutable binding table: rows are added, never changed. */
    var bindings: map<Target, Address>
    var entries: map<string, Option<Address>>
    /** The keys of `entries`, oldest insertion first. */
    var order: seq<string>

    ghost predicate Valid()
      reads this
    {
      && |order| <= MEMO_MAX_ENTRIES
      && (forall i, j | 0 <= i < j < |order| :: order[i] != order[j])
      && (forall k :: k in order <==> k in entries)
      && forall t | Plain(t) && Key(t) in entries && entries[Key(t)].Some? ::
           t in bindings && bindings[t] == entries[Key(t)].value
    }

    constructor ()
      ensures Valid() && bindings == map[] && entries == map[]
    {
      bindings, entries, order := map[], map[], [];
    }

    method Commit(t: Target, address: Address)
      requires Valid() && t !in bindings
      modifies this`bindings
      ensures Valid() && bindings == old(bindings)[t := address]
    {
      bindings := bindings[t := address];
    }

    /** The memo of a key, made room for by dropping the oldest one. */
    method MemoFor(key: string)
      requires Valid()
      modifies this`entries, this`order
      ensures Valid() && key in entries && |order| <= 10_000
      ensures key in old(entries) ==> entries == old(entries) && order == old(order)
      ensures key !in old(entries) ==> entries[key] == None
      ensures key !in old(entries) ==>
                order == (if |old(order)| >= MEMO_MAX_ENTRIES then old(order)[1..] else old(order)) + [key]
      ensures forall k | k in entries && k != key :: k in old(entries) && entries[k] == old(entries)[k]
    {
      if key !in entries {
        if |order| >= MEMO_MAX_ENTRIES {
          var oldest := order[0];
          assert forall k :: k in order[1..] <==> k in order && k != oldest;
          entries, order := entries - {oldest}, order[1..];
        }
        entries, order := entries[key := None], order + [key];
      }
    }

    /**
     The token is read for every delivery, the binding only when no memo has it. Whatever was evicted
     or cached before, a resolved address is the target's own binding.
     */
    method Resolve(t: Target, token: Fetch<Option<string>>, reachable: bool) returns (r: Resolution)
      requires Valid() && Plain(t)
      modifies this`entries, this`order
      ensures Valid()
      ensures r.Resolved? ==> token == Got(Some(r.token)) && t in bindings && r.address == bindings[t]
      ensures r.NotConnected? <==> token == Got(None)
      ensures r.NoBinding? ==> t !in bindings && reachable && Key(t) in entries && entries[Key(t)] == None
      ensures r.Unreachable? ==> token.Failed? || !reachable
      ensures token.Got? && token.value.Some? && (reachable || (Key(t) in old(entries) && old(entries)[Key(t)].Some?)) ==>
                r == if t in bindings then Resolved(token.value.value, bindings[t]) else NoBinding
      ensures forall k | k in entries && k != Key(t) :: k in old(entries) && entries[k] == old(entries)[k]
    {
      var key := Key(t);
      MemoFor(key);
      if token.Failed? {
        return Unreachable;
      }
      if token.value.None? {
        return NotConnected;
      }
      if entries[key].Some? {
        return Resolved(token.value.value, entries[key].value);
      }
      if !reachable {
        return Unreachable;
      }
      if t !in bindings {
        return NoBinding;
      }
      Remember(t);
      return Resolved(token.value.value, bindings[t]);
    }

    method Remember(t: Target)
      requires Valid() && Plain(t) && Key(t) in entries && t in bindings
      modifies this`entries
      ensures Valid() && entries == old(entries)[Key(t) := Some(bindings[t])]
    {
      forall u | Plain(u) && Key(u) == Key(t) ensures u == t {
        KeyIsInjective(u, t);
      }
      entries := entries[Key(t) := Some(bindings[t])];
    }
  }
}
