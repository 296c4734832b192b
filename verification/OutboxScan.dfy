/** The outbox scan of the surface worker's loop: apps/surface-worker/src/index.ts. */
module OutboxScan {
  import opened Prelude

  /** One queued delivery, with the message it carries. */
  datatype Item = Item(tenant: string, message: string, target: string)

  datatype Recovery = Recovery(message: string, tenant: string, targets: seq<string>)

  function TargetsOf(items: seq<Item>, message: string): seq<string> {
    if items == [] then []
    else
      var n := |items| - 1;
      TargetsOf(items[..n], message) + (if items[n].message == message then [items[n].target] else [])
  }

  /** Messages in the order of their first item. */
  function Messages(items: seq<Item>): seq<string> {
    if items == [] then []
    else
      var n := |items| - 1;
      var before := Messages(items[..n]);
      if items[n].message in before then before else before + [items[n].message]
  }

  /** A delivery, by its message and its destination. */
  type Pair = (string, string)

  function Scanned(items: seq<Item>): multiset<Pair> {
    if items == [] then multiset{}
    else var n := |items| - 1; Scanned(items[..n]) + multiset{(items[n].message, items[n].target)}
  }

  function Addressed(message: string, targets: seq<string>): multiset<Pair> {
    if targets == [] then multiset{}
    else var n := |targets| - 1; Addressed(message, targets[..n]) + multiset{(message, targets[n])}
  }

  /** The deliveries the recoveries carry. */
  function Carried(recoveries: seq<Recovery>): multiset<Pair> {
    if recoveries == [] then multiset{}
    else var n := |recoveries| - 1; Carried(recoveries[..n]) + Addressed(recoveries[n].message, recoveries[n].targets)
  }

  /** The recovery of one message: all its targets in scan order, and its own tenant. */
  ghost predicate FilesOf(items: seq<Item>, message: string, r: Recovery) {
    r.message == message && r.targets == TargetsOf(items, message) && FromScan(items, r)
  }

  /** Every message of the scan once, oldest first, with all its targets in scan order. */
  ghost predicate Groups(items: seq<Item>, recoveries: seq<Recovery>) {
    && |recoveries| == |Messages(items)|
    && forall i | 0 <= i < |recoveries| :: FilesOf(items, Messages(items)[i], recoveries[i])
  }

  /** The tenant is the one of the message's items. */
  ghost predicate FromScan(items: seq<Item>, r: Recovery) {
    exists k | 0 <= k < |items| :: items[k].message == r.message && items[k].tenant == r.tenant
  }

  lemma {:induction false} MessagesAreDistinct(items: seq<Item>)
    ensures forall i, j | 0 <= i < j < |Messages(items)| :: Messages(items)[i] != Messages(items)[j]
    ensures forall m :: m in Messages(items) <==> exists i | 0 <= i < |items| :: items[i].message == m
  {
    if items != [] {
      var n := |items| - 1;
      MessagesAreDistinct(items[..n]);
      forall m | m in Messages(items) ensures exists i | 0 <= i < |items| :: items[i].message == m {
        if m in Messages(items[..n]) {
          var i :| 0 <= i < n && items[..n][i].message == m;
          assert items[i].message == m;
        } else {
          assert items[n].message == m;
        }
      }
      forall i | 0 <= i < |items| ensures items[i].message in Messages(items) {
        if i < n {
          assert items[..n][i].message == items[i].message;
        }
      }
    }
  }

  /** Deliveries are rows of one table, so a message has no target twice. */
  lemma {:induction false} TargetsAreDistinct(items: seq<Item>, message: string)
    requires forall i, j | 0 <= i < j < |items| ::
               items[i].message == items[j].message ==> items[i].target != items[j].target
    ensures forall i, j | 0 <= i < j < |TargetsOf(items, message)| ::
              TargetsOf(items, message)[i] != TargetsOf(items, message)[j]
    ensures forall t :: t in TargetsOf(items, message) <==>
              exists i | 0 <= i < |items| :: items[i].message == message && items[i].target == t
  {
    if items != [] {
      var n := |items| - 1;
      TargetsAreDistinct(items[..n], message);
      assert items[n].message == message ==> items[n].target !in TargetsOf(items[..n], message);
      forall t | t in TargetsOf(items, message)
        ensures exists i | 0 <= i < |items| :: items[i].message == message && items[i].target == t
      {
        if t in TargetsOf(items[..n], message) {
          var i :| 0 <= i < n && items[..n][i].message == message && items[..n][i].target == t;
          assert items[i].message == message && items[i].target == t;
        } else {
          assert items[n].message == message && items[n].target == t;
        }
      }
      forall i | 0 <= i < |items| && items[i].message == message ensures items[i].target in TargetsOf(items, message) {
        if i < n {
          assert items[..n][i] == items[i];
        }
      }
    }
  }

  lemma {:induction false} Unmentioned(items: seq<Item>, message: string)
    requires forall i | 0 <= i < |items| :: items[i].message != message
    ensures TargetsOf(items, message) == []
  {
    if items != [] {
      Unmentioned(items[..|items| - 1], message);
    }
  }

  predicate Carries(a: Recovery, b: Recovery) {
    a.message == b.message && a.targets == b.targets
  }

  // ---------------------------------------------------------------------------------------------
  // One more item of the scan

  lemma OtherMessage(items: seq<Item>, item: Item, message: string, r: Recovery)
    requires FilesOf(items, message, r) && message != item.message
    ensures FilesOf(items + [item], message, r)
  {
    var more := items + [item];
    assert more[..|items|] == items;
    var k :| 0 <= k < |items| && items[k].message == r.message && items[k].tenant == r.tenant;
    assert more[k] == items[k];
  }

  lemma KnownMessage(items: seq<Item>, item: Item, r: Recovery)
    requires FilesOf(items, item.message, r)
    ensures FilesOf(items + [item], item.message, r.(targets := r.targets + [item.target]))
  {
    var more := items + [item];
    assert more[..|items|] == items;
    var k :| 0 <= k < |items| && items[k].message == r.message && items[k].tenant == r.tenant;
    assert more[k] == items[k];
  }

  lemma NewMessage(items: seq<Item>, item: Item)
    requires item.message !in Messages(items)
    ensures FilesOf(items + [item], item.message, Recovery(item.message, item.tenant, [item.target]))
  {
    var more := items + [item];
    assert more[..|items|] == items && more[|items|] == item;
    MessagesAreDistinct(items);
    Unmentioned(items, item.message);
  }

  lemma MessagesGrow(items: seq<Item>, item: Item)
    ensures var before := Messages(items);
            Messages(items + [item]) == if item.message in before then before else before + [item.message]
  {
    assert (items + [item])[..|items|] == items;
  }

  // ---------------------------------------------------------------------------------------------
  // Nothing is lost

  lemma {:induction false} CarriedSame(a: seq<Recovery>, b: seq<Recovery>)
    requires |a| == |b| && forall i | 0 <= i < |a| :: Carries(a[i], b[i])
    ensures Carried(a) == Carried(b)
  {
    if a != [] {
      CarriedSame(a[..|a| - 1], b[..|b| - 1]);
      assert Carries(a[|a| - 1], b[|b| - 1]);
    }
  }

  lemma AddressedGrows(message: string, targets: seq<string>, target: string)
    ensures Addressed(message, targets + [target]) == Addressed(message, targets) + multiset{(message, target)}
  {
    assert (targets + [target])[..|targets|] == targets;
  }

  lemma {:induction false} CarriedGrows(a: seq<Recovery>, b: seq<Recovery>, j: nat, target: string)
    requires j < |a| == |b| && Carries(a[j].(targets := a[j].targets + [target]), b[j])
    requires forall i | 0 <= i < |a| && i != j :: Carries(a[i], b[i])
    ensures Carried(b) == Carried(a) + multiset{(a[j].message, target)}
  {
    hide Addressed;
    var n := |a| - 1;
    if j == n {
      CarriedSame(a[..n], b[..n]);
      AddressedGrows(a[n].message, a[n].targets, target);
    } else {
      CarriedGrows(a[..n], b[..n], j, target);
      assert Carries(a[n], b[n]);
    }
  }

  ghost function Grouped(items: seq<Item>): seq<Recovery> {
    seq(|Messages(items)|, i requires 0 <= i < |Messages(items)| =>
      Recovery(Messages(items)[i], "", TargetsOf(items, Messages(items)[i])))
  }

  lemma TargetsGrow(items: seq<Item>, item: Item, message: string)
    ensures TargetsOf(items + [item], message) ==
              TargetsOf(items, message) + (if item.message == message then [item.target] else [])
  {
    assert (items + [item])[..|items|] == items;
  }

  /** `r` becomes `r'` when the scan has one more item. */
  predicate InStep(r: Recovery, r': Recovery, item: Item) {
    Carries(if r.message == item.message then r.(targets := r.targets + [item.target]) else r, r')
  }

  lemma GroupedInStep(items: seq<Item>, item: Item, i: nat)
    requires i < |Messages(items)| && i < |Messages(items + [item])|
    ensures InStep(Grouped(items)[i], Grouped(items + [item])[i], item)
  {
    MessagesGrow(items, item);
    TargetsGrow(items, item, Messages(items)[i]);
  }

  lemma GroupedLast(items: seq<Item>, item: Item)
    requires item.message !in Messages(items)
    ensures var b := Grouped(items + [item]);
            |b| == |Messages(items)| + 1 && Carries(Recovery(item.message, "", [item.target]), b[|b| - 1])
  {
    MessagesGrow(items, item);
    TargetsGrow(items, item, item.message);
    MessagesAreDistinct(items);
    Unmentioned(items, item.message);
  }

  lemma CarriedAppended(a: seq<Recovery>, r: Recovery, item: Item)
    requires Carries(Recovery(item.message, "", [item.target]), r)
    ensures Carried(a + [r]) == Carried(a) + multiset{(item.message, item.target)}
  {
    assert (a + [r])[..|a|] == a;
    AddressedGrows(item.message, [], item.target);
    assert [] + [item.target] == [item.target];
  }

  lemma KnownGrows(items: seq<Item>, item: Item, j: nat)
    requires j < |Messages(items)| && Messages(items)[j] == item.message
    ensures Carried(Grouped(items + [item])) == Carried(Grouped(items)) + multiset{(item.message, item.target)}
  {
    var a, b := Grouped(items), Grouped(items + [item]);
    MessagesGrow(items, item);
    MessagesAreDistinct(items);
    forall i | 0 <= i < |a| ensures InStep(a[i], b[i], item) {
      GroupedInStep(items, item, i);
    }
    assert forall i | 0 <= i < |a| && i != j :: a[i].message != item.message;
    assert a[j].message == item.message && |a| == |b|;
    hide Carried, Messages, Grouped, Carries;
    CarriedGrows(a, b, j, item.target);
  }

  lemma NewGrows(items: seq<Item>, item: Item)
    requires item.message !in Messages(items)
    ensures Carried(Grouped(items + [item])) == Carried(Grouped(items)) + multiset{(item.message, item.target)}
  {
    var a, b := Grouped(items), Grouped(items + [item]);
    MessagesGrow(items, item);
    GroupedLast(items, item);
    forall i | 0 <= i < |a| ensures Carries(a[i], b[i]) {
      GroupedInStep(items, item, i);
    }
    assert |b| == |a| + 1;
    hide Carried, Messages, Grouped, Carries;
    CarriedSame(a, b[..|a|]);
    CarriedAppended(b[..|a|], b[|a|], item);
    assert b == b[..|a|] + [b[|a|]];
  }

  lemma {:induction false} GroupedCarriesAll(items: seq<Item>)
    ensures Carried(Grouped(items)) == Scanned(items)
  {
    if items != [] {
      var n := |items| - 1;
      GroupedCarriesAll(items[..n]);
      assert items[..n] + [items[n]] == items;
      hide Messages, Grouped, Carried;
      if items[n].message in Messages(items[..n]) {
        var j :| 0 <= j < |Messages(items[..n])| && Messages(items[..n])[j] == items[n].message;
        KnownGrows(items[..n], items[n], j);
      } else {
        NewGrows(items[..n], items[n]);
      }
    } else {
      assert Grouped(items) == [];
    }
  }

  /** The recoveries carry exactly the deliveries of the scan, each as often as the scan has it. */
  lemma NothingIsLost(items: seq<Item>, recoveries: seq<Recovery>)
    requires Groups(items, recoveries)
    ensures Carried(recoveries) == Scanned(items)
  {
    GroupedCarriesAll(items);
    CarriedSame(Grouped(items), recoveries);
  }

  /** The map of recoveries as the scan fills it: insertion order is the order of first items. */
  class Scan {
    var recoveries: map<string, Recovery>
    var order: seq<string>

    constructor ()
      ensures recoveries == map[] && order == []
    {
      recoveries, order := map[], [];
    }

    /** The map holds exactly the recoveries of `items`. */
    ghost predicate Filed(items: seq<Item>)
      reads this
    {
      && order == Messages(items)
      && (forall m :: m in recoveries <==> m in order)
      && forall m | m in order :: FilesOf(items, m, recoveries[m])
    }

    method Add(ghost items: seq<Item>, item: Item)
      requires Filed(items)
      modifies this
      ensures Filed(items + [item])
    {
      hide FilesOf, Messages;
      MessagesGrow(items, item);
      forall m | m in order && m != item.message ensures FilesOf(items + [item], m, recoveries[m]) {
        OtherMessage(items, item, m, recoveries[m]);
      }
      if item.message in recoveries {
        var existing := recoveries[item.message];
        KnownMessage(items, item, existing);
        recoveries := recoveries[item.message := existing.(targets := existing.targets + [item.target])];
      } else {
        NewMessage(items, item);
        recoveries := recoveries[item.message := Recovery(item.message, item.tenant, [item.target])];
        order := order + [item.message];
      }
    }

    method Fill(items: seq<Item>) returns (groups: seq<Recovery>)
      requires recoveries == map[] && order == []
      modifies this
      ensures Groups(items, groups)
    {
      for i := 0 to |items|
        invariant Filed(items[..i])
      {
        assert items[..i + 1] == items[..i] + [items[i]];
        Add(items[..i], items[i]);
      }
      assert items[..|items|] == items;
      groups := [];
      for i := 0 to |order|
        invariant |groups| == i && Filed(items)
        invariant forall j | 0 <= j < i :: groups[j] == recoveries[order[j]]
      {
        groups := groups + [recoveries[order[i]]];
      }
    }
  }

  /** Every recovery is fanned out, also after one made progress, until one throws (`None`). */
  method Recover(answers: seq<Option<bool>>) returns (asked: nat, progress: bool, threw: bool)
    ensures asked <= |answers|
    ensures threw <==> exists i | 0 <= i < |answers| :: answers[i].None?
    ensures !threw ==> asked == |answers| && (progress <==> Some(true) in answers)
    ensures threw ==> asked > 0 && answers[asked - 1].None? && None !in answers[..asked - 1]
  {
    progress := false;
    for i := 0 to |answers|
      invariant progress <==> Some(true) in answers[..i]
      invariant None !in answers[..i]
    {
      if answers[i].None? {
        return i + 1, progress, true;
      }
      progress := answers[i].value || progress;
    }
    assert answers[..|answers|] == answers;
    return |answers|, progress, false;
  }
}
