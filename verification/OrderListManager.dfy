/** The order-list half of the execution manager as an object over the order cache. */
module ListManagers {
  import opened Model
  import opened OrderCache
  import opened OrderLists
  import EM = ExecutionManager
  import Managers

  class ListManager {
    const cache: Cache
    var held: Held
    var members: map<Key, seq<Id>>
    var watermarks: map<Key, real>

    ghost function State(): Lists
      reads this
    {
      Lists(held, members, watermarks)
    }

    constructor (c: Cache)
      ensures cache == c && State() == Lists(map[], map[], map[])
    {
      cache, held, members, watermarks := c, map[], map[], map[];
    }

    method IndexOrderList(list: OrderList) returns (ok: bool)
      modifies this
      ensures ok == list.Valid()
      ensures State() == if ok then JoinAll(old(State()), list.orders) else old(State())
    {
      ok := list.Valid();
      if !ok { return; }
      for i := 0 to |list.orders|
        invariant State() == JoinAll(old(State()), list.orders[..i])
      {
        var order := list.orders[i];
        assert list.orders[..i + 1][..i] == list.orders[..i];
        var key := Key(order.account, order.list);
        members := members[key := (if key in members then members[key] else []) + [order.client]];
        if order.parent == NO_ID { continue; }
        held := held[order.Parent() := Children(held, order.Parent()) + [order]];
      }
      assert list.orders[..|list.orders|] == list.orders;
    }

    /** A member of a list other than `o`, if it is cached and open. */
    method OpenSibling(o: Order, client: Id) returns (found: Option<Order>)
      requires cache.Valid()
      ensures var s := EM.ByClient(cache.orders, Key(o.account, client));
              found == if client == o.client || s.None? || !s.value.status.IsOpen() then None else s
    {
      if client == o.client { return None; }
      found := cache.Lookup(ClientAlias, Key(o.account, client));
      Managers.FoundIsByClient(cache.orders, cache.indexes.AliasIndex(ClientAlias), Key(o.account, client), found);
      if found.Some? && !found.value.status.IsOpen() { found := None; }
    }

    method HandleOuoProgress(o: Order, listed: seq<Id>) returns (actions: Actions)
      requires cache.Valid() && listed == State().Members(Key(o.account, o.list))
      modifies this
      ensures Step(State(), actions) == OuoProgress(old(State()), cache.orders, o)
    {
      actions := NO_ACTIONS;
      if o.filled <= 0.0 { return; }
      var previous := if o.At() in watermarks then watermarks[o.At()] else 0.0;
      if o.filled <= previous { return; }
      var delta := o.filled - previous;
      watermarks := watermarks[o.At() := o.filled];
      ghost var state := State();
      for i := 0 to |listed|
        invariant State() == state && cache.Valid()
        invariant actions == CutAll(Siblings(cache.orders, o, listed[..i]), delta)
      {
        assert listed[..i + 1][..i] == listed[..i];
        var sibling := OpenSibling(o, listed[i]);
        if sibling.None? { continue; }
        ghost var before := Siblings(cache.orders, o, listed[..i]);
        assert Siblings(cache.orders, o, listed[..i + 1]) == before + [sibling.value];
        assert (before + [sibling.value])[..|before|] == before;
        actions := Cut(actions, sibling.value, delta);
      }
      assert listed[..|listed|] == listed;
    }

    method HeldCount(list: Key) returns (count: nat)
      ensures count > 0 <==> Holds(held, list)
    {
      count := 0;
      var rest := held.Keys;
      while rest != {}
        invariant rest <= held.Keys
        invariant count > 0 <==> exists k, i ::
                      && k in held && k !in rest && k.account == list.account
                      && 0 <= i < |held[k]| && held[k][i].list == list.id
        decreases rest
      {
        var k :| k in rest;
        var found := 0;
        for i := 0 to |held[k]|
          invariant found > 0 <==> exists j :: 0 <= j < i && held[k][j].list == list.id
        {
          if held[k][i].list == list.id { found := found + 1; }
        }
        if k.account == list.account { count := count + found; }
        rest := rest - {k};
      }
    }

    /** The status of a list the manager knows. */
    method OrderListStatus(list: Key) returns (known: bool, status: ListStatus)
      requires cache.Valid()
      ensures known == (list.id != NO_ID && list in members)
      ensures known ==> (status.ListClosed? <==> IsClosed(State(), cache.orders, list))
      ensures known ==> (status.ListOpen? <==> IsOpen(State(), cache.orders, list))
    {
      known, status := list.id != NO_ID && list in members, ListInitialized;
      if !known { return; }
      var heldCount := HeldCount(list);
      var orders := cache.WithAttribute(ListAttribute, list);
      var openCount, terminalCount := 0, 0;
      for i := 0 to |orders|
        invariant openCount > 0 <==> exists j :: 0 <= j < i && orders[j].status.IsOpen()
        invariant terminalCount > 0 <==> exists j :: 0 <= j < i && orders[j].status.IsTerminal()
      {
        if orders[i].status.IsTerminal() {
          terminalCount := terminalCount + 1;
        } else if orders[i].status.IsOpen() {
          openCount := openCount + 1;
        }
      }
      Scanned(cache.orders, list, orders);
      status := DeriveStatus(openCount, terminalCount, heldCount);
    }

    /** Forgets what is left of a closed list. */
    method CleanupClosedOrderList(list: Key)
      requires cache.Valid()
      modifies this
      ensures State() == Cleanup(old(State()), cache.orders, list)
    {
      if list.id == NO_ID { return; }
      var known, status := OrderListStatus(list);
      if !known || !status.ListClosed? { return; }
      held := DropHeld(held, list);
      ghost var marks := watermarks;
      var rest := watermarks.Keys;
      while rest != {}
        invariant rest <= marks.Keys && held == DropChildren(old(held), list) && members == old(members)
        invariant watermarks == map k | k in marks && (k in rest
                      || !(k in cache.orders && InList(cache.orders[k], list))) :: marks[k]
        decreases rest
      {
        var k :| k in rest;
        rest := rest - {k};
        if k in cache.orders && InList(cache.orders[k], list) { watermarks := watermarks - {k}; }
      }
    }

    method OcoCancels(o: Order, listed: seq<Id>) returns (cancels: seq<Reference>)
      requires cache.Valid()
      ensures cancels == References(Siblings(cache.orders, o, listed))
    {
      cancels := [];
      for i := 0 to |listed|
        invariant cancels == References(Siblings(cache.orders, o, listed[..i]))
      {
        assert listed[..i + 1][..i] == listed[..i];
        var sibling := OpenSibling(o, listed[i]);
        if sibling.None? { continue; }
        cancels := cancels + [Refer(sibling.value)];
      }
      assert listed[..|listed|] == listed;
    }

    /** Everything but the cleanup: discard, resize, release and cancel. */
    method Respond(o: Order) returns (actions: Actions)
      requires cache.Valid()
      modifies this
      ensures Step(State(), actions) == OrderLists.Respond(old(State()).(held := Discard(old(held), o)), cache.orders,
                  o)
    {
      var listed := if Key(o.account, o.list) in members then members[Key(o.account, o.list)] else [];
      held := Discard(held, o);
      actions := NO_ACTIONS;
      if o.list != NO_ID && o.contingency.Ouo? { actions := HandleOuoProgress(o, listed); }
      if !o.status.Filled? { return; }
      var parent := Key(o.account, o.client);
      actions := actions.(submit := Children(held, parent));
      held := held - {parent};
      if o.list == NO_ID || !o.contingency.Oco? { return; }
      var cancels := OcoCancels(o, listed);
      actions := actions.(cancel := cancels);
    }

    method HandleOrderListProgress(o: Order) returns (actions: Actions)
      requires cache.Valid()
      modifies this
      ensures Step(State(), actions) == Progress(old(State()), cache.orders, o)
      ensures !o.Valid() || (!o.status.Filled? && !o.contingency.Ouo?) ==> actions == NO_ACTIONS
    {
      AsksNothing(State(), cache.orders, o);
      if !o.Valid() { return NO_ACTIONS; }
      actions := this.Respond(o);
      CleanupClosedOrderList(Key(o.account, o.list));
    }
  }

  lemma Scanned(orders: Orders, list: Key, found: seq<Order>)
    requires WellKeyed(orders)
    requires forall o: Order :: o in found <==>
                 && o.At() in orders && orders[o.At()] == o
                 && o.account == list.account && AttributeOf(ListAttribute, o) == list.id
    ensures (exists j :: 0 <= j < |found| && found[j].status.IsOpen()) <==>
                !(forall k :: k in orders && InList(orders[k], list) ==> !orders[k].status.IsOpen())
    ensures (exists j :: 0 <= j < |found| && found[j].status.IsTerminal()) <==>
                exists k :: k in orders && InList(orders[k], list) && orders[k].status.IsTerminal()
  {
    forall j | 0 <= j < |found| ensures found[j].At() in orders && orders[found[j].At()] == found[j]
      && InList(found[j], list) {
      assert found[j] in found;
    }
    forall k | k in orders && InList(orders[k], list) ensures exists j :: 0 <= j < |found| && found[j] == orders[k] {
      assert orders[k] in found;
    }
  }

  /** The children of other lists, in order. */
  method OthersOf(children: seq<Submit>, list: Id) returns (kept: seq<Submit>)
    ensures kept == Other(children, list)
  {
    kept := [];
    for i := 0 to |children|
      invariant kept == Other(children[..i], list)
    {
      assert children[..i + 1][..i] == children[..i];
      if children[i].list != list { kept := kept + [children[i]]; }
    }
    assert children[..|children|] == children;
  }

  /** Where the children of one parent stand before and after they are filtered. */
  predicate Filtered(held: Held, left: Held, k: Key, list: Key) {
    if k !in held then k !in left
    else if k.account != list.account then k in left && left[k] == held[k]
    else if Other(held[k], list.id) == [] then k !in left
    else k in left && left[k] == Other(held[k], list.id)
  }

  predicate Unfiltered(held: Held, left: Held, k: Key) {
    k in held && k in left && left[k] == held[k]
  }

  method DropHeld(held: Held, list: Key) returns (left: Held)
    ensures left == DropChildren(held, list)
  {
    left := held;
    var rest := held.Keys;
    while rest != {}
      invariant forall k :: if k in rest then Unfiltered(held, left, k) else Filtered(held, left, k, list)
      decreases rest
    {
      var k :| k in rest;
      assert Unfiltered(held, left, k);
      rest := rest - {k};
      if k.account != list.account { continue; }
      var kept := OthersOf(held[k], list.id);
      left := if kept == [] then left - {k} else left[k := kept];
    }
    ghost var kept := DropChildren(held, list);
    forall k ensures (k in left <==> k in kept) && (k in left ==> left[k] == kept[k]) {
      assert Filtered(held, left, k, list); }
    assert left == kept;
  }
}
