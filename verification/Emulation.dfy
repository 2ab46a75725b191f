/** Local emulation of stop, touch and trailing orders: an order is held until the market crosses its trigger. */
module Emulation {
  import opened Model

  datatype OrderType =
    | Market | Limit | StopMarket | StopLimit | MarketIfTouched | LimitIfTouched
    | TrailingStopMarket | TrailingStopLimit | MarketToLimit
  {
    predicate IsTrailing() {
      TrailingStopMarket? || TrailingStopLimit?
    }

    predicate IsTouched() {
      MarketIfTouched? || LimitIfTouched?
    }

    predicate AllowsPrice() {
      Limit? || StopLimit? || LimitIfTouched? || TrailingStopLimit? || MarketToLimit?
    }

    predicate AllowsStop() {
      StopMarket? || StopLimit? || MarketIfTouched? || LimitIfTouched?
    }
  }

  datatype Trigger = NoTrigger | DefaultTrigger | BidAsk | LastPrice

  datatype OffsetType = PriceOffset | BasisPoints | Ticks

  /** A submit command. `stop` is its trigger price, `watched` the instrument it triggers on if not its own,
      `lifetime` its time in force, `accepted` the outcome of the checks on fields the emulator does not read. */
  datatype Submit = Submit(
    account: Id, client: Id, instrument: Id, watched: Id, side: OrderSide, kind: OrderType, trigger: Trigger,
    quantity: real, price: real, stop: real, activation: real, offset: real, offsetType: OffsetType, lifetime: Id,
    accepted: bool)
  {
    function At(): Key {
      Key(account, client)
    }

    function Watches(): Id {
      if watched != NO_ID then watched else instrument
    }

    predicate Valid() {
      && accepted && account != NO_ID && instrument != NO_ID && !side.NoSide? && 0.0 < quantity
      && ((kind.Limit? || kind.StopLimit? || kind.LimitIfTouched? || kind.TrailingStopLimit?) ==> 0.0 < price)
      && (kind.AllowsStop() ==> 0.0 < stop)
      && (kind.IsTrailing() ==> 0.0 < offset)
    }
  }

  /** A market event; books are given by their prices, best first. */
  datatype MarketEvent =
    | Quote(instrument: Id, bid: real, ask: real)
    | Book(instrument: Id, bids: seq<real>, asks: seq<real>)
    | Trade(instrument: Id, price: real)
    | Other(instrument: Id)
  {
    predicate Valid() {
      instrument != NO_ID &&
      match this
      case Quote(_, bid, ask) => 0.0 < bid <= ask
      case Book(_, bids, asks) =>
        && (forall i :: 0 <= i < |bids| ==> 0.0 < bids[i]) && (forall i :: 0 <= i < |asks| ==> 0.0 < asks[i])
        && (bids != [] && asks != [] ==> bids[0] < asks[0])
      case Trade(_, price) => 0.0 < price
      case Other(_) => true
    }
  }

  function BidAskPrice(side: OrderSide, e: MarketEvent): Option<real> {
    match e
    case Quote(_, bid, ask) => Some(if side.Buy? then ask else bid)
    case Book(_, bids, asks) =>
      if side.Buy? && asks != [] then Some(asks[0])
      else if side.Sell? && bids != [] then Some(bids[0])
      else None
    case _ => None
  }

  /** The price an order is compared with; every event a trailing order can see moves both ends of its range
      together. */
  function EmulationPrice(o: Submit, e: MarketEvent): Option<real> {
    match o.trigger
    case NoTrigger => None
    case LastPrice => if e.Trade? then Some(e.price) else None
    case _ => BidAskPrice(o.side, e)
  }

  predicate Marketable(o: Submit, e: MarketEvent) {
    match EmulationPrice(o, e)
    case None => false
    case Some(p) => 0.0 < o.price && 0.0 < p && ((o.side.Buy? && p <= o.price) || (o.side.Sell? && o.price <= p))
  }

  predicate Fires(o: Submit, e: MarketEvent) {
    if o.kind.Limit? || o.kind.MarketToLimit? then Marketable(o, e)
    else match EmulationPrice(o, e)
      case None => false
      case Some(p) => 0.0 < p && 0.0 < o.stop && if o.kind.IsTouched() == o.side.Buy? then p <= o.stop else o.stop <= p
  }

  // ----- Trailing stops -----

  /** The positive price ticks of the known instruments. */
  type TickTable = ticks: map<Id, real> | forall i :: i in ticks ==> 0.0 < ticks[i] witness map[]

  function Portion(reference: real, points: real): real {
    reference * points / 10000.0
  }

  function Ticked(offset: real, tick: real): real {
    offset * tick
  }

  function OffsetPrice(o: Submit, reference: real, ticks: TickTable): Option<real> {
    match o.offsetType
    case PriceOffset => Some(o.offset)
    case BasisPoints => Some(Portion(reference, o.offset))
    case Ticks => if o.Watches() in ticks then Some(Ticked(o.offset, ticks[o.Watches()])) else None
  }

  predicate Activates(o: Submit, p: real) {
    0.0 < o.activation ==> !(o.side.Sell? && p < o.activation) && !(o.side.Buy? && o.activation < p)
  }

  datatype Verdict = Verdict(order: Submit, extreme: Option<real>, triggered: bool, updated: bool)

  function Better(side: OrderSide, extreme: real, p: real): real {
    if (side.Sell? && extreme < p) || (side.Buy? && p < extreme) then p else extreme
  }

  function EvaluateTrailing(o: Submit, extreme: Option<real>, e: MarketEvent, ticks: TickTable): Verdict {
    if o.offset <= 0.0 then Verdict(o, extreme, false, false)
    else match EmulationPrice(o, e)
      case None => Verdict(o, extreme, false, false)
      case Some(p) =>
        if extreme.None? && !Activates(o, p) then Verdict(o, extreme, false, false)
        else
          var x := if extreme.None? then p else Better(o.side, extreme.value, p);
          match OffsetPrice(o, x, ticks)
          case None => Verdict(o, Some(x), false, false)
          case Some(offset) =>
            match o.side
            case Sell => Verdict(o.(stop := x - offset), Some(x), p <= x - offset, o.stop != x - offset)
            case Buy => Verdict(o.(stop := x + offset), Some(x), x + offset <= p, o.stop != x + offset)
            case NoSide => Verdict(o, Some(x), false, false)
  }

  function Evaluate(o: Submit, extreme: Option<real>, e: MarketEvent, ticks: TickTable): Verdict {
    if o.kind.IsTrailing() then EvaluateTrailing(o, extreme, e, ticks) else Verdict(o, extreme, Fires(o, e), false)
  }

  /** The order that goes to the venue. */
  function Transform(o: Submit): Submit {
    var free := o.(trigger := NoTrigger, watched := NO_ID);
    match o.kind
    case StopMarket => free.(kind := Market, price := 0.0, stop := 0.0, activation := 0.0, offset := 0.0,
      offsetType := PriceOffset)
    case MarketIfTouched => free.(kind := Market, price := 0.0, stop := 0.0, activation := 0.0, offset := 0.0,
      offsetType := PriceOffset)
    case TrailingStopMarket => free.(kind := Market, price := 0.0, stop := 0.0, activation := 0.0, offset := 0.0,
      offsetType := PriceOffset)
    case StopLimit => free.(kind := Limit, stop := 0.0, activation := 0.0, offset := 0.0, offsetType := PriceOffset)
    case LimitIfTouched => free.(kind := Limit, stop := 0.0, activation := 0.0, offset := 0.0,
      offsetType := PriceOffset)
    case TrailingStopLimit => free.(kind := Limit, stop := 0.0, activation := 0.0, offset := 0.0,
      offsetType := PriceOffset)
    case _ => free
  }

  // ----- The emulator's steps -----

  datatype Desk = Desk(orders: map<Key, Submit>, trailing: map<Key, real>) {
    function Extreme(k: Key): Option<real> {
      if k in trailing then Some(trailing[k]) else None
    }

    function Look(k: Key, o: Submit, e: MarketEvent, ticks: TickTable): Verdict {
      Evaluate(o, Extreme(k), e, ticks)
    }

    function Trail(k: Key, extreme: Option<real>): map<Key, real> {
      if extreme.Some? then trailing[k := extreme.value] else trailing
    }

    function Without(k: Key): Desk {
      Desk(orders - {k}, trailing - {k})
    }
  }

  datatype Outcome = Outcome(desk: Desk, released: seq<Submit>)

  /** A submission; an order that already crosses is released at once and not held. */
  function TakeIn(s: Desk, o: Submit, latest: Option<MarketEvent>, ticks: TickTable): Outcome {
    if o.trigger.NoTrigger? || !o.Valid() then Outcome(s, [])
    else if latest.None? then Outcome(s.(orders := s.orders[o.At() := o]), [])
    else
      var v := s.Look(o.At(), o, latest.value, ticks);
      if v.triggered then Outcome(s.(trailing := s.trailing - {o.At()}), [Transform(v.order)])
      else Outcome(Desk(s.orders[o.At() := v.order], s.Trail(o.At(), v.extreme)), [])
  }

  /** One held order meets an event. */
  function Observed(s: Desk, k: Key, e: MarketEvent, ticks: TickTable): Outcome
    requires k in s.orders
  {
    var v := s.Look(k, s.orders[k], e, ticks);
    if v.triggered then Outcome(s.Without(k), [Transform(v.order)])
    else Outcome(Desk(if v.updated then s.orders[k := v.order] else s.orders, s.Trail(k, v.extreme)), [])
  }

  predicate Concerned(s: Desk, k: Key, e: MarketEvent) {
    k in s.orders && s.orders[k].Watches() == e.instrument
  }

  /** The orders an event concerns meet it one after the other. */
  function ObservedAll(s: Desk, keys: seq<Key>, e: MarketEvent, ticks: TickTable): Outcome {
    if keys == [] then Outcome(s, [])
    else
      var before, k := ObservedAll(s, keys[..|keys| - 1], e, ticks), keys[|keys| - 1];
      if k !in before.desk.orders then before
      else
        var last := Observed(before.desk, k, e, ticks);
        Outcome(last.desk, before.released + last.released)
  }

  function Cancelled(s: Desk, found: Option<Key>): Desk {
    if found.Some? && found.value in s.orders then s.Without(found.value) else s
  }

  /** A modification; zero or absent fields are left alone. */
  datatype Change = Change(
    quantity: real, price: real, stop: real, activation: real, offset: real, offsetType: Option<OffsetType>,
      lifetime: Id)
  {
    predicate Retrails() {
      0.0 < stop || 0.0 < activation || 0.0 < offset || offsetType.Some?
    }
  }

  function Amend(o: Submit, c: Change): Option<Submit> {
    if 0.0 < c.price && !o.kind.AllowsPrice() then None
    else if 0.0 < c.stop && !o.kind.AllowsStop() then None
    else if (0.0 < c.activation || 0.0 < c.offset || c.offsetType.Some?) && !o.kind.IsTrailing() then None
    else
      var next := o.(quantity := if 0.0 < c.quantity then c.quantity else o.quantity,
                     price := if 0.0 < c.price then c.price else o.price,
                     stop := if 0.0 < c.stop then c.stop else o.stop,
                     activation := if 0.0 < c.activation then c.activation else o.activation,
                     offset := if 0.0 < c.offset then c.offset else o.offset,
                     offsetType := if c.offsetType.Some? then c.offsetType.value else o.offsetType,
                     lifetime := if c.lifetime != NO_ID then c.lifetime else o.lifetime);
      if next == o then None else Some(next)
  }

  /** New trailing terms start the trail anew. */
  function Amended(s: Desk, k: Key, next: Submit, c: Change): Desk {
    Desk(s.orders[k := next], if c.Retrails() then s.trailing - {k} else s.trailing)
  }

  function Modified(s: Desk, found: Option<Key>, c: Change, latest: Option<MarketEvent>, ticks: TickTable): Outcome {
    if found.None? || found.value !in s.orders || Amend(s.orders[found.value], c).None? then Outcome(s, [])
    else
      var k, next := found.value, Amend(s.orders[found.value], c).value;
      if latest.None? then Outcome(Amended(s, k, next, c), [])
        else Observed(Amended(s, k, next, c), k, latest.value, ticks)
  }
}
