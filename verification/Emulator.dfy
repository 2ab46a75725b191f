/** The emulator as an object; each method refines one step of `Emulation`. */
module Emulators {
  import opened Model
  import opened Sorting
  import opened Emulation
  import Trailing

  datatype Judged = Judged(desk: Desk, order: Submit, triggered: bool, updated: bool)

  function Noted(s: Desk, k: Key, v: Verdict): Judged {
    Judged(s.(trailing := s.Trail(k, v.extreme)), v.order, v.triggered, v.updated)
  }

  class Emulator {
    var orders: map<Key, Submit>
    var trailing: map<Key, real>

    ghost function State(): Desk
      reads this
    {
      Desk(orders, trailing)
    }

    constructor ()
      ensures State() == Desk(map[], map[])
    {
      orders, trailing := map[], map[];
    }

    /** Moves the extreme of a trailing order; none until a price activates it. */
    method Trail(k: Key, o: Submit, p: real) returns (extreme: Option<real>)
      modifies this
      ensures var before := old(State()).Extreme(k);
              extreme == if before.Some? then Some(Better(o.side, before.value, p)) else if Activates(o, p)
                then Some(p) else None
      ensures State() == old(State()).(trailing := old(State()).Trail(k, extreme))
    {
      if k !in trailing {
        if 0.0 < o.activation {
          if o.side.Sell? && p < o.activation { return None; }
          if o.side.Buy? && o.activation < p { return None; }
        }
        trailing := trailing[k := p];
      } else if o.side.Sell? && trailing[k] < p {
        trailing := trailing[k := p];
      } else if o.side.Buy? && p < trailing[k] {
        trailing := trailing[k := p];
      }
      extreme := Some(trailing[k]);
    }

    method EvaluateTrailingOrder(k: Key, o: Submit, e: MarketEvent, ticks: TickTable)
        returns (next: Submit, triggered: bool, updated: bool)
      modifies this
      ensures Judged(State(), next, triggered, updated) ==
                  Noted(old(State()), k, EvaluateTrailing(o, old(State()).Extreme(k), e, ticks))
    {
      next, triggered, updated := o, false, false;
      var price := EmulationPrice(o, e);
      if o.offset <= 0.0 || price.None? { return; }
      var p := price.value;
      var extreme := this.Trail(k, o, p);
      if extreme.None? { return; }
      var offset := OffsetPrice(o, extreme.value, ticks);
      if offset.None? { return; }
      match o.side
      case Sell =>
        var level := extreme.value - offset.value;
        next, triggered, updated := o.(stop := level), p <= level, o.stop != level;
      case Buy =>
        var level := extreme.value + offset.value;
        next, triggered, updated := o.(stop := level), level <= p, o.stop != level;
      case NoSide =>
    }

    method EvaluateOrder(k: Key, o: Submit, e: MarketEvent, ticks: TickTable)
        returns (next: Submit, triggered: bool, updated: bool)
      modifies this
      ensures Judged(State(), next, triggered, updated) == Noted(old(State()), k, old(State()).Look(k, o, e, ticks))
    {
      if o.kind.IsTrailing() {
        next, triggered, updated := EvaluateTrailingOrder(k, o, e, ticks);
      } else {
        next, triggered, updated := o, Fires(o, e), false;
        assert State().Trail(k, State().Extreme(k)) == trailing;
      }
    }

    /** `latest` is the last event cached for what the order watches. */
    method SubmitOrder(o: Submit, latest: Option<MarketEvent>, ticks: TickTable) returns (released: seq<Submit>)
      modifies this
      ensures Outcome(State(), released) == TakeIn(old(State()), o, latest, ticks)
    {
      released := [];
      if o.trigger.NoTrigger? || !o.Valid() { return; }
      if latest.None? { orders := orders[o.At() := o]; return; }
      var next, triggered, _ := EvaluateOrder(o.At(), o, latest.value, ticks);
      if triggered {
        trailing := trailing - {o.At()};
        released := [Transform(next)];
      } else {
        orders := orders[o.At() := next];
      }
    }

    /** One held order meets an event. */
    method Observe(k: Key, e: MarketEvent, ticks: TickTable) returns (released: seq<Submit>)
      requires k in orders
      modifies this
      ensures Outcome(State(), released) == Observed(old(State()), k, e, ticks)
    {
      released := [];
      var next, triggered, updated := EvaluateOrder(k, orders[k], e, ticks);
      if !triggered {
        if updated { orders := orders[k := next]; }
        return;
      }
      orders, trailing := orders - {k}, trailing - {k};
      released := [Transform(next)];
    }

    /** The orders watching the event's instrument meet it by increasing account and client id. */
    method ProcessMarketEvent(e: MarketEvent, ticks: TickTable) returns (released: seq<Submit>, ghost keys: seq<Key>)
      modifies this
      ensures Outcome(State(), released) == Trailing.Handle(old(State()), Trailing.Observing(e, keys, ticks))
      ensures e.Valid() ==> Trailing.Visits(old(State()), Trailing.Observing(e, keys, ticks)) && Ascending(keys)
    {
      released, keys := [], [];
      if !e.Valid() { return; }
      var listed := ConcernedKeys(orders, e);
      keys := listed;
      for i := 0 to |listed|
        invariant Outcome(State(), released) == ObservedAll(old(State()), listed[..i], e, ticks)
      {
        assert listed[..i + 1][..i] == listed[..i];
        if listed[i] !in orders { continue; }
        var more := Observe(listed[i], e, ticks);
        released := released + more;
      }
      assert listed[..|listed|] == listed;
    }

    /** `found` is the key of the emulated order the command names, if the cache knows one. */
    method CancelOrder(found: Option<Key>) returns (ok: bool)
      modifies this
      ensures State() == Cancelled(old(State()), found) && ok == (found.Some? && found.value in old(orders))
    {
      ok := found.Some? && found.value in orders;
      if ok { orders, trailing := orders - {found.value}, trailing - {found.value}; }
    }

    method ModifyOrder(found: Option<Key>, c: Change, latest: Option<MarketEvent>, ticks: TickTable)
        returns (released: seq<Submit>)
      modifies this
      ensures Outcome(State(), released) == Modified(old(State()), found, c, latest, ticks)
    {
      released := [];
      if found.None? || found.value !in orders { return; }
      var k := found.value;
      var next := Amend(orders[k], c);
      if next.None? { return; }
      if c.Retrails() { trailing := trailing - {k}; }
      orders := orders[k := next.value];
      if latest.Some? { released := Observe(k, latest.value, ticks); }
    }
  }

  ghost predicate Ascending(keys: seq<Key>) {
    forall i, j :: 0 <= i < j < |keys| ==> Less(Rank(keys[i].account, keys[i].id), Rank(keys[j].account, keys[j].id))
  }

  method ConcernedKeys(orders: map<Key, Submit>, e: MarketEvent) returns (keys: seq<Key>)
    ensures Ascending(keys) && forall k :: k in keys <==> k in orders && orders[k].Watches() == e.instrument
  {
    var found := set k | k in orders && orders[k].Watches() == e.instrument;
    var ranks := Sort(set k | k in found :: Rank(k.account, k.id));
    keys := [];
    for i := 0 to |ranks|
      invariant |keys| == i
      invariant forall j :: 0 <= j < i ==> keys[j] in found && Rank(keys[j].account, keys[j].id) == ranks[j]
    {
      assert ranks[i] in ranks;
      keys := keys + [Key(ranks[i].major, ranks[i].id)];
    }
    forall k | k in found ensures k in keys {
      assert Rank(k.account, k.id) in ranks;
      var j :| 0 <= j < |ranks| && ranks[j] == Rank(k.account, k.id);
      assert keys[j] == k;
    }
  }
}
