/** When the emulator lets an order go, and what it sends to the venue: each order type in its own words. */
module Releases {
  import opened Model
  import opened Emulation
  import opened Trailing

  // ----- Prices and triggers -----

  /** The event shows the order the price `p`: the last trade, or what the order would trade at, the best ask for a buy
      and the best bid for a sell. */
  ghost predicate Shows(o: Submit, e: MarketEvent, p: real) {
    match o.trigger
    case NoTrigger => false
    case LastPrice => e.Trade? && p == e.price
    case _ =>
      match o.side
      case Buy => (e.Quote? && p == e.ask) || (e.Book? && 0 < |e.asks| && p == e.asks[0])
      case Sell => (e.Quote? && p == e.bid) || (e.Book? && 0 < |e.bids| && p == e.bids[0])
      case NoSide => false
  }

  /** `p` is at least as high, or as low, as a positive limit. */
  predicate AtOrAbove(p: real, limit: real) {
    0.0 < limit <= p
  }

  predicate AtOrBelow(p: real, limit: real) {
    p <= limit && 0.0 < limit
  }

  /** A stop waits for the price to run away, a touch order and a limit order for it to come back: a limit order to its
      limit, the others to their trigger price. */
  ghost predicate Met(o: Submit, p: real) {
    match o.kind
    case StopMarket => if o.side.Buy? then AtOrAbove(p, o.stop) else AtOrBelow(p, o.stop)
    case StopLimit => if o.side.Buy? then AtOrAbove(p, o.stop) else AtOrBelow(p, o.stop)
    case Market => if o.side.Buy? then AtOrAbove(p, o.stop) else AtOrBelow(p, o.stop)
    case MarketIfTouched => if o.side.Buy? then AtOrBelow(p, o.stop) else AtOrAbove(p, o.stop)
    case LimitIfTouched => if o.side.Buy? then AtOrBelow(p, o.stop) else AtOrAbove(p, o.stop)
    case Limit => if o.side.Buy? then AtOrBelow(p, o.price) else AtOrAbove(p, o.price)
    case MarketToLimit => if o.side.Buy? then AtOrBelow(p, o.price) else AtOrAbove(p, o.price)
    case _ => false
  }

  /** The event shows a plain order a price that meets it. */
  ghost predicate Ripe(o: Submit, e: MarketEvent) {
    exists p :: Shows(o, e, p) && Met(o, p)
  }

  lemma ShownPrice(o: Submit, e: MarketEvent, p: real)
    requires o.Valid() && e.Valid()
    ensures Shows(o, e, p) <==> EmulationPrice(o, e) == Some(p)
    ensures Shows(o, e, p) ==> 0.0 < p
  {
  }

  lemma FiresIff(o: Submit, e: MarketEvent)
    requires o.Valid() && e.Valid() && !o.kind.IsTrailing()
    ensures Fires(o, e) <==> Ripe(o, e)
  {
    forall p ensures Shows(o, e, p) <==> EmulationPrice(o, e) == Some(p) { ShownPrice(o, e, p); }
    if EmulationPrice(o, e).Some? { ShownPrice(o, e, EmulationPrice(o, e).value); }
  }

  // ----- What is sent -----

  /** `x` is what the venue gets for `o`: stops and touch orders become the market or limit order behind them, a limit
      order keeps its limit, and no trace of the emulation is left. */
  ghost predicate Sends(o: Submit, x: Submit) {
    && x.account == o.account && x.client == o.client && x.instrument == o.instrument && x.side == o.side
    && x.quantity == o.quantity && x.lifetime == o.lifetime && x.accepted == o.accepted
    && x.trigger == NoTrigger && x.watched == NO_ID
    && match o.kind
       case Market => x.kind == Market && SameTriggers(o, x)
       case Limit => x.kind == Limit && SameTriggers(o, x)
       case MarketToLimit => x.kind == MarketToLimit && SameTriggers(o, x)
       case StopMarket => x.kind == Market && x.price == 0.0 && Bare(x)
       case MarketIfTouched => x.kind == Market && x.price == 0.0 && Bare(x)
       case TrailingStopMarket => x.kind == Market && x.price == 0.0 && Bare(x)
       case StopLimit => x.kind == Limit && x.price == o.price && Bare(x)
       case LimitIfTouched => x.kind == Limit && x.price == o.price && Bare(x)
       case TrailingStopLimit => x.kind == Limit && x.price == o.price && Bare(x)
  }

  predicate Bare(x: Submit) {
    x.stop == x.activation == x.offset == 0.0 && x.offsetType.PriceOffset?
  }

  predicate SameTriggers(o: Submit, x: Submit) {
    x.price == o.price && x.stop == o.stop && x.activation == o.activation && x.offset == o.offset
      && x.offsetType == o.offsetType
  }

  lemma LookSends(s: Desk, k: Key, o: Submit, e: MarketEvent, ticks: TickTable)
    requires o.Valid()
    ensures Sends(o, Transform(s.Look(k, o, e, ticks).order))
  {
    LookKeeps(s, k, o, e, ticks);
  }

  // ----- Every command -----

  datatype Encounter = Encounter(order: Submit, event: MarketEvent)

  /** The order under a key that a command sets against a market event. */
  ghost function Meets(s: Desk, c: Command, k: Key): Option<Encounter> {
    match c
    case Submitting(o, latest, _) => if Accepts(c, k) && latest.Some? then Some(Encounter(o, latest.value)) else None
    case Observing(e, keys, _) =>
      if e.Valid() && k in keys && k in s.orders then Some(Encounter(s.orders[k], e)) else None
    case Cancelling(_) => None
    case Modifying(found, change, latest, _) =>
      if found == Some(k) && k in s.orders && Amend(s.orders[k], change).Some? && latest.Some?
      then Some(Encounter(Amend(s.orders[k], change).value, latest.value)) else None
  }

  lemma ObservedPlain(s: Desk, k: Key, e: MarketEvent, ticks: TickTable)
    requires Orderly(s) && k in s.orders && e.Valid() && !s.orders[k].kind.IsTrailing()
    ensures |Observed(s, k, e, ticks).released| == if Ripe(s.orders[k], e) then 1 else 0
  {
    FiresIff(s.orders[k], e);
  }

  /** A plain order is released, by an event, a modification or its own submission, exactly when the price it is then
      shown meets it; a command that shows it nothing releases nothing. */
  lemma PlainReleasedIff(s: Desk, c: Command, k: Key)
    requires Orderly(s) && Visits(s, c)
    ensures Meets(s, c, k).None? ==> Count(Handle(s, c).released, k) == 0
    ensures Meets(s, c, k).Some? && !Meets(s, c, k).value.order.kind.IsTrailing() ==>
              var m := Meets(s, c, k).value;
              Count(Handle(s, c).released, k) == if Ripe(m.order, m.event) then 1 else 0
  {
    match c
    case Submitting(o, latest, ticks) => SubmittedPlain(s, o, latest, ticks, k);
    case Observing(e, keys, ticks) =>
      ObservedAllAt(s, keys, e, ticks, k);
      if e.Valid() && k in keys && !s.orders[k].kind.IsTrailing() { ObservedPlain(s, k, e, ticks); }
    case Cancelling(found) =>
    case Modifying(found, change, latest, ticks) =>
      if found.Some? && found.value in s.orders && Amend(s.orders[found.value], change).Some? {
        if found.value == k { ModifiedPlain(s, k, change, latest, ticks); }
        else { ModifiedElsewhere(s, found.value, change, latest, ticks, k); }
      }
  }

  lemma SubmittedPlain(s: Desk, o: Submit, latest: Option<MarketEvent>, ticks: TickTable, k: Key)
    requires latest.Some? ==> latest.value.Valid()
    ensures var c, n := Submitting(o, latest, ticks), Count(TakeIn(s, o, latest, ticks).released, k);
            && (Meets(s, c, k).None? ==> n == 0)
            && (Meets(s, c, k).Some? && !o.kind.IsTrailing() ==> n == if Ripe(o, latest.value) then 1 else 0)
  {
    if o.Valid() && !o.trigger.NoTrigger? && latest.Some? {
      LookKeeps(s, o.At(), o, latest.value, ticks);
      if !o.kind.IsTrailing() { FiresIff(o, latest.value); }
    }
  }

  lemma ModifiedPlain(s: Desk, k: Key, change: Change, latest: Option<MarketEvent>, ticks: TickTable)
    requires Orderly(s) && k in s.orders && Amend(s.orders[k], change).Some?
    requires latest.Some? ==> latest.value.Valid()
    ensures var n := Count(Modified(s, Some(k), change, latest, ticks).released, k);
            && (latest.None? ==> n == 0)
            && (latest.Some? && !s.orders[k].kind.IsTrailing() ==>
                  n == if Ripe(Amend(s.orders[k], change).value, latest.value) then 1 else 0)
  {
    var next := Amend(s.orders[k], change).value;
    AmendKeeps(s, k, change);
    if latest.Some? {
      ReleaseCounts(Amended(s, k, next, change), k, latest.value, ticks);
      if !s.orders[k].kind.IsTrailing() { ObservedPlain(Amended(s, k, next, change), k, latest.value, ticks); }
    }
  }

  /** Every order that goes to the venue is what its own order sends. */
  lemma ReleasedIsSent(s: Desk, c: Command, x: Submit)
    requires Orderly(s) && Visits(s, c) && x in Handle(s, c).released
    ensures Meets(s, c, x.At()).Some? && Sends(Meets(s, c, x.At()).value.order, x)
  {
    match c
    case Submitting(o, latest, ticks) => LookSends(s, o.At(), o, latest.value, ticks);
    case Observing(e, keys, ticks) => ObservedAllSends(s, keys, e, ticks, x);
    case Modifying(found, change, latest, ticks) =>
      var k := found.value;
      AmendKeeps(s, k, change);
      LookSends(Amended(s, k, Amend(s.orders[k], change).value, change), k, Amend(s.orders[k], change).value,
        latest.value, ticks);
  }

  lemma {:induction false} ObservedAllSends(s: Desk, keys: seq<Key>, e: MarketEvent, ticks: TickTable, x: Submit)
    requires Orderly(s) && Distinct(keys) && (forall j :: j in keys ==> j in s.orders)
    requires x in ObservedAll(s, keys, e, ticks).released
    ensures x.At() in keys && Sends(s.orders[x.At()], x)
  {
    if keys != [] {
      var before, k := keys[..|keys| - 1], keys[|keys| - 1];
      var out := ObservedAll(s, before, e, ticks);
      if x in out.released {
        ObservedAllSends(s, before, e, ticks, x);
      } else {
        ObservedAllAt(s, before, e, ticks, k);
        assert SlotOf(out.desk, k).order == Some(out.desk.orders[k]);
        LookSends(out.desk, k, s.orders[k], e, ticks);
      }
    }
  }

  // ----- Trailing terms -----

  /** A sell wakes at or above its activation price, a buy at or below it, and an order without one at any price. */
  predicate Wakes(o: Submit, p: real) {
    o.activation <= 0.0 || (if o.side.Sell? then o.activation <= p else p <= o.activation)
  }

  lemma {:induction false} SinceWoken(o: Submit, ps: seq<Sighting>)
    requires !o.side.NoSide?
    ensures Since(o, ps) != [] <==> exists i :: 0 <= i < |ps| && Wakes(o, ps[i].price)
  {
    if ps != [] {
      SinceWoken(o, ps[1..]);
      assert Activates(o, ps[0].price) <==> Wakes(o, ps[0].price);
      if i :| 0 <= i < |ps| && Wakes(o, ps[i].price) {
        assert i > 0 ==> ps[1..][i - 1] == ps[i];
      }
      if i :| 0 <= i < |ps[1..]| && Wakes(o, ps[1..][i].price) { assert ps[i + 1] == ps[1..][i]; }
    }
  }

  /** Over any run, a held trailing order has an extreme exactly if one of the prices it has seen has woken it. */
  lemma TrailsOnceWoken(cs: seq<Command>, k: Key)
    requires Visited(cs) && Fresh(cs, k) && k in Run(cs).orders && Run(cs).orders[k].kind.IsTrailing()
    ensures k in Run(cs).trailing <==>
              exists i :: 0 <= i < |Seen(cs, k)| && Wakes(Run(cs).orders[k], Seen(cs, k)[i].price)
  {
    RunOrderly(cs);
    RunTrails(cs, k);
    SinceWoken(Run(cs).orders[k], Seen(cs, k));
  }

  /** The trigger hangs below the extreme of a sell and above that of a buy: by the offset itself, by so many parts in
      ten thousand of the extreme, or by so many ticks of what the order watches; without a known tick it does not hang.
      */
  lemma HangsBy(o: Submit, x: real, ticks: TickTable, watched: Id)
    requires o.Valid() && watched == if o.watched == NO_ID then o.instrument else o.watched
    ensures Level(o, x, ticks).None? <==> o.offsetType.Ticks? && watched !in ticks
    ensures Level(o, x, ticks).Some? ==>
              var distance := if o.side.Sell? then x - Level(o, x, ticks).value else Level(o, x, ticks).value - x;
              match o.offsetType
              case PriceOffset => distance == o.offset
              case BasisPoints => distance * 10000.0 == x * o.offset
              case Ticks => distance == o.offset * ticks[watched]
  {
  }

  // ----- What is let in -----

  /** The submission names an account, an instrument, a side, a quantity and a trigger, and a positive price wherever
      its type needs one. */
  predicate Complete(o: Submit) {
    && o.accepted && o.account != NO_ID && o.instrument != NO_ID && o.side in {Buy, Sell} && o.quantity > 0.0
    && o.trigger != NoTrigger
    && (o.kind in {Limit, StopLimit, LimitIfTouched, TrailingStopLimit} ==> o.price > 0.0)
    && (o.kind in {StopMarket, StopLimit, MarketIfTouched, LimitIfTouched} ==> o.stop > 0.0)
    && (o.kind in {TrailingStopMarket, TrailingStopLimit} ==> o.offset > 0.0)
  }

  /** With no market event to judge it by, a submission is held exactly if it is complete, and else nothing changes. */
  lemma HeldIffComplete(s: Desk, o: Submit, ticks: TickTable)
    ensures TakeIn(s, o, None, ticks) ==
              if Complete(o) then Outcome(s.(orders := s.orders[o.At() := o]), []) else Outcome(s, [])
    ensures forall e :: !Complete(o) ==> TakeIn(s, o, Some(e), ticks) == Outcome(s, [])
  {
  }

  /** The prices of the event are positive and its bid is below its ask; a quote may lock the market. */
  ghost predicate Sane(e: MarketEvent) {
    && e.instrument != NO_ID
    && (e.Trade? ==> e.price > 0.0)
    && (e.Quote? ==> e.bid > 0.0 && e.ask >= e.bid)
    && (e.Book? ==> (forall p :: p in e.bids || p in e.asks ==> p > 0.0)
                    && (|e.bids| > 0 && |e.asks| > 0 ==> e.asks[0] > e.bids[0]))
  }

  /** Any other event is ignored. */
  lemma SeenIffSane(s: Desk, e: MarketEvent, keys: seq<Key>, ticks: TickTable)
    ensures Handle(s, Observing(e, keys, ticks)) == if Sane(e) then ObservedAll(s, keys, e, ticks) else Outcome(s, [])
  {
    if e.Book? {
      assert e.Valid() ==> forall p :: p in e.bids || p in e.asks ==> p > 0.0;
      assert Sane(e) ==> (forall i :: 0 <= i < |e.bids| ==> e.bids[i] in e.bids)
                         && (forall i :: 0 <= i < |e.asks| ==> e.asks[i] in e.asks);
    }
  }

  // ----- Modifications -----

  /** A modification is refused if it names a price the type does not have, or changes nothing. */
  predicate Futile(o: Submit, c: Change) {
    || (0.0 < c.price && o.kind in {Market, StopMarket, MarketIfTouched, TrailingStopMarket})
    || (0.0 < c.stop && o.kind !in {StopMarket, StopLimit, MarketIfTouched, LimitIfTouched})
    || ((0.0 < c.activation || 0.0 < c.offset || c.offsetType.Some?)
        && o.kind !in {TrailingStopMarket, TrailingStopLimit})
    || (&& (c.quantity <= 0.0 || c.quantity == o.quantity) && (c.price <= 0.0 || c.price == o.price)
        && (c.stop <= 0.0 || c.stop == o.stop) && (c.activation <= 0.0 || c.activation == o.activation)
        && (c.offset <= 0.0 || c.offset == o.offset) && (c.offsetType.None? || c.offsetType.value == o.offsetType)
        && (c.lifetime == NO_ID || c.lifetime == o.lifetime))
  }

  /** Otherwise the order takes on what the modification names and keeps the rest, so that asking again is futile. */
  lemma AmendTakesOn(o: Submit, c: Change)
    ensures Amend(o, c).None? <==> Futile(o, c)
    ensures Amend(o, c).Some? ==>
              var n := Amend(o, c).value;
              && n == o.(quantity := n.quantity, price := n.price, stop := n.stop, activation := n.activation,
                         offset := n.offset, offsetType := n.offsetType, lifetime := n.lifetime)
              && Takes(c.quantity, o.quantity, n.quantity) && Takes(c.price, o.price, n.price)
              && Takes(c.stop, o.stop, n.stop) && Takes(c.activation, o.activation, n.activation)
              && Takes(c.offset, o.offset, n.offset)
              && n.offsetType == (if c.offsetType.Some? then c.offsetType.value else o.offsetType)
              && n.lifetime == (if c.lifetime != NO_ID then c.lifetime else o.lifetime)
              && Amend(n, c).None?
  {
  }

  /** A field that was `was` is `now` what is asked for, if anything is. */
  predicate Takes(asked: real, was: real, now: real) {
    if 0.0 < asked then now == asked else now == was
  }
}
