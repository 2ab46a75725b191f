/** The execution manager as an object over the order and fill caches; each method is one atomic step. */
module Managers {
  import opened Model
  import opened OrderCache
  import opened Fills
  import EM = ExecutionManager

  lemma FoundIsByClient(orders: Orders, index: Aliases, name: Key, found: Option<Order>)
    requires ExactAliases(index, ClientAlias, orders)
    requires found.Some? ==>
                 Names(orders, ClientAlias, name, found.value.At()) && orders[found.value.At()] == found.value
    requires found.None? && name.id != NO_ID ==> forall k :: !Names(orders, ClientAlias, name, k)
    requires name.id == NO_ID ==> found.None?
    ensures found == EM.ByClient(orders, name)
  {
    if found.Some? {
      assert Names(orders, ClientAlias, name, found.value.At());
      forall k | Names(orders, ClientAlias, name, k) ensures k == found.value.At() {
        AliasesUnique(index, ClientAlias, orders, k, found.value.At());
      }
    }
  }

  lemma DeferExact(b: FillBook, f: Fill)
    requires b.Exact() && f.Valid()
    ensures b.Defer(f).Exact()
  {
    assert Filed(Of(b.deferred, f.At()), f.At());
    forall k ensures b.Defer(f).OrderIndexed(k) { assert b.OrderIndexed(k); }
    forall k | k in b.Defer(f).trades ensures b.Defer(f).TradeStored(k) { assert b.TradeStored(k); }
    forall k ensures Filed(Of(b.Defer(f).deferred, k), k) { assert Filed(Of(b.deferred, k), k); }
  }

  lemma ClearExact(b: FillBook, j: Key)
    requires b.Exact()
    ensures b.ClearDeferred(j).Exact()
  {
    forall k ensures b.ClearDeferred(j).OrderIndexed(k) { assert b.OrderIndexed(k); }
    forall k | k in b.trades ensures b.ClearDeferred(j).TradeStored(k) { assert b.TradeStored(k); }
    forall k ensures Filed(Of(b.ClearDeferred(j).deferred, k), k) { assert Filed(Of(b.deferred, k), k); }
  }

  class Manager {
    const orders: Cache
    const fills: FillCache

    ghost function Books(): EM.Books
      reads orders, fills
    {
      EM.Books(orders.orders, fills.book)
    }

    ghost predicate Valid()
      reads orders, fills
    {
      orders.Valid() && fills.book.Exact()
    }

    constructor (o: Cache, f: FillCache)
      requires o.Valid() && f.book.Exact()
      ensures Valid() && orders == o && fills == f
    {
      orders, fills := o, f;
    }

    method Target(f: Fill) returns (found: Option<Order>)
      requires Valid()
      ensures found == EM.Target(orders.orders, f)
    {
      if f.At() in orders.orders { return Some(orders.orders[f.At()]); }
      found := orders.Lookup(ClientAlias, Key(f.account, f.client));
      FoundIsByClient(orders.orders, orders.indexes.AliasIndex(ClientAlias), Key(f.account, f.client), found);
    }

    method ApplyFill(f: Fill) returns (outcome: EM.Outcome)
      requires Valid()
      modifies orders, fills
      ensures Valid()
      ensures EM.Step(Books(), outcome) == EM.ApplyFill(old(Books()), f)
      ensures outcome.IsError() ==> Books() == old(Books())
    {
      EM.FillRefusedIff(Books(), f);
      if !f.Valid() { return EM.FillInvalid; }
      if Key(f.account, f.trade) in fills.book.trades { return EM.FillSkipped; }
      var target := Target(f);
      if target.None? && !f.leg {
        DeferExact(fills.book, f);
        var _, _ := fills.PutDeferredFill(f);
        return EM.FillSkipped;
      }
      if target.Some? && EM.Overfills(target.value, f) { return EM.FillOverfills; }
      fills.book.PutExact(f);
      var stored, _ := fills.PutFill(f);
      outcome := if stored then EM.FillStored else EM.FillSkipped;
      if target.Some? {
        var ok := orders.PutOrder(EM.FillOrder(target.value, f));
        if !ok { outcome := EM.OrderRejected; }
      }
    }

    method ReplayDeferredFills(k: Key) returns (outcome: EM.Outcome)
      requires Valid()
      modifies orders, fills
      ensures Valid()
      ensures forall s :: Chronological(s, Of(old(fills.book).deferred, k)) ==>
                var replay := EM.ApplyFills(old(Books()), s);
                if replay.outcome.IsError() then EM.Step(Books(), outcome) == replay
                else outcome == EM.FillSkipped && Books() == replay.books.(fills := replay.books.fills.ClearDeferred(k))
    {
      ghost var before := Books();
      assert Filed(Of(fills.book.deferred, k), k);
      var s := SortFills(Of(fills.book.deferred, k));
      forall t | Chronological(t, Of(fills.book.deferred, k))
        ensures t == s { ChronologicalUnique(s, t, Of(fills.book.deferred, k)); }
      for i := 0 to |s|
        invariant Valid()
        invariant EM.ApplyFills(before, s) == EM.ApplyFills(Books(), s[i..])
      {
        assert s[i..][1..] == s[i + 1..];
        outcome := ApplyFill(s[i]);
        if outcome.IsError() { return; }
      }
      ClearExact(fills.book, k);
      fills.ClearDeferredFillsForOrder(k);
      outcome := EM.FillSkipped;
    }

    method ApplyOrderReport(r: Order) returns (outcome: EM.Outcome)
      requires Valid()
      modifies orders, fills
      ensures Valid()
      ensures EM.Replayable(old(Books())) && EM.Step(Books(), outcome) == EM.ApplyOrderReport(old(Books()), r)
      ensures if EM.Admissible(old(orders.orders), r) then r.At() in orders.orders
              else outcome.IsError() && Books() == old(Books())
    {
      assert EM.Replayable(Books());
      if EM.Admissible(orders.orders, r) { EM.ReportKeepsOrder(Books(), r); } else { EM.ReportAdmitted(Books(), r); }
      if !r.Valid() || !EM.TransitionAllowed(orders.orders, r) { return EM.OrderRejected; }
      var ok := orders.PutOrder(r);
      if !ok { return EM.OrderRejected; }
      assert Filed(Of(fills.book.deferred, r.At()), r.At());
      ghost var listing := Listing(Of(fills.book.deferred, r.At()));
      outcome := ReplayDeferredFills(r.At());
    }
  }
}
