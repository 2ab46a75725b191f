/**
 Identifiers, orders, fills and positions shared by every component.

 An identifier is modelled by its rank in the lexicographic order of the strings in use, so that `NO_ID`
 is the empty string and `<` is the string order the sort helpers use. Decimals are exact `real`s, times
 are `int`s. An instrument is identified by its printed form, which is also its netting position id.
 */
module Model {
  type Id = nat
  const NO_ID: Id := 0

  type Time = int

  /** An identifier within an account: the source nests one map per account inside every index. */
  datatype Key = Key(account: Id, id: Id)

  datatype Option<+T> = None | Some(value: T)

  /** The outcome of a validation. */
  datatype Error = Nil | Invalid

  datatype OrderSide = NoSide | Buy | Sell

  datatype Contingency = NoContingency | Oto | Oco | Ouo

  datatype OrderStatus =
    | NoStatus | Initialized | Denied | Emulated | Released | Submitted | Accepted | Triggered
    | PendingCancel | PendingUpdate | PartiallyFilled | Filled | Canceled | Rejected | Expired
  {
    predicate IsTerminal() {
      Denied? || Filled? || Canceled? || Rejected? || Expired?
    }

    predicate IsOpen() {
      !NoStatus? && !IsTerminal()
    }
  }

  datatype Order = Order(
    account: Id, instrument: Id, order: Id, client: Id, venue: Id, strategy: Id, position: Id, list: Id, spawn: Id,
    status: OrderStatus, side: OrderSide, contingency: Contingency,
    quantity: real, filled: real, leaves: real, average: real, updated: Time)
  {
    function At(): Key {
      Key(account, order)
    }

    function Validate(): Error {
      if account == NO_ID || order == NO_ID || status.NoStatus? || instrument == NO_ID then Invalid
      else if filled < 0.0 || quantity < 0.0 || leaves < 0.0 then Invalid
      else if 0.0 < quantity < filled then Invalid
      else Nil
    }

    predicate Valid() {
      Validate().Nil?
    }
  }

  /** `leg` is the outcome of the leg test: an explicit flag or a leg marker inside the client or venue id. */
  datatype Fill = Fill(
    account: Id, instrument: Id, order: Id, venue: Id, client: Id, trade: Id, position: Id, leg: bool,
    side: OrderSide, price: real, quantity: real, fee: real, timestamp: Time)
  {
    function At(): Key {
      Key(account, order)
    }

    function Validate(): Error {
      if account == NO_ID || trade == NO_ID || (order == NO_ID && !leg) || instrument == NO_ID then Invalid
      else if price <= 0.0 || quantity <= 0.0 || fee < 0.0 then Invalid
      else Nil
    }

    predicate Valid() {
      Validate().Nil?
    }
  }

  datatype PositionSide = NoPositionSide | Long | Short | Flat

  datatype Position = Position(
    account: Id, instrument: Id, id: Id, venue: Id, side: PositionSide, quantity: real, entry: real, timestamp: Time)
  {
    function At(): Key {
      Key(account, id)
    }

    function Validate(): Error {
      if account == NO_ID || id == NO_ID || instrument == NO_ID || entry < 0.0 then Invalid else Nil
    }

    predicate Valid() {
      Validate().Nil?
    }

    predicate IsOpen() {
      !side.Flat? && quantity != 0.0
    }
  }

  function Min(x: real, y: real): real {
    if x <= y then x else y
  }

  function Abs(x: real): real {
    if x < 0.0 then -x else x
  }

  // ----- What is valid -----

  /** A fill is valid with an account, a trade, an instrument, an order unless it is a leg, and a positive price and
      quantity at no negative fee. */
  lemma FillValidIff(f: Fill)
    ensures f.Valid() <==>
              && f.account != NO_ID && f.trade != NO_ID && f.instrument != NO_ID && (f.leg || f.order != NO_ID)
              && f.price > 0.0 && f.quantity > 0.0 && f.fee >= 0.0
  {
  }

  /** An order is valid with an account, an id, an instrument and a status, no negative quantity, and no more filled
      than its quantity, if that is known. */
  lemma OrderValidIff(o: Order)
    ensures o.Valid() <==>
              && o.account != NO_ID && o.order != NO_ID && o.instrument != NO_ID && o.status != NoStatus
              && o.quantity >= 0.0 && o.filled >= 0.0 && o.leaves >= 0.0
              && (o.quantity == 0.0 || o.filled <= o.quantity)
  {
  }

  /** An order has no status, is open, or has ended, in exactly five ways. */
  lemma StatusIs(s: OrderStatus)
    ensures s.IsTerminal() <==> s in {Denied, Filled, Canceled, Rejected, Expired}
    ensures s.IsOpen() <==> s != NoStatus && !s.IsTerminal()
  {
  }

  /** A position is valid with an account, an id, an instrument and no negative entry price; it is open unless it is
      flat or empty. */
  lemma PositionValidIff(p: Position)
    ensures p.Valid() <==> p.account != NO_ID && p.id != NO_ID && p.instrument != NO_ID && p.entry >= 0.0
    ensures p.IsOpen() <==> p.side != Flat && p.quantity != 0.0
  {
  }
}
