/**
 Order reports and fills, in any order of arrival. A fill that precedes its order is deferred and replayed when the
 order is reported; a fill is recognised by its trade id and applied once.
 */
module ExecutionManager {
  import opened Model
  import opened OrderCache
  import opened Fills

  /** What the manager reads and writes of the cache; the order indexes are functions of `orders`. */
  datatype Books = Books(orders: Orders, fills: FillBook)

  datatype Outcome = FillStored | FillSkipped | FillInvalid | FillOverfills | OrderRejected {
    predicate IsError() {
      FillInvalid? || FillOverfills? || OrderRejected?
    }
  }

  datatype Step = Step(books: Books, outcome: Outcome)

  ghost function ByClient(orders: Orders, name: Key): Option<Order> {
    if name.id != NO_ID && exists k :: Names(orders, ClientAlias, name, k)
    then var k :| Names(orders, ClientAlias, name, k); Some(orders[k])
    else None
  }

  ghost function Target(orders: Orders, f: Fill): Option<Order> {
    if f.At() in orders then Some(orders[f.At()]) else ByClient(orders, Key(f.account, f.client))
  }

  function AverageFillPrice(o: Order, f: Fill, nextFilled: real): real {
    if nextFilled == 0.0 then 0.0
    else if o.filled == 0.0 || o.average == 0.0 then f.price
    else (o.average * o.filled + Worth(f)) / nextFilled
  }

  predicate Overfills(o: Order, f: Fill) {
    0.0 < o.quantity && o.quantity < o.filled + f.quantity
  }

  /** The order after one more fill. */
  function FillOrder(o: Order, f: Fill): Order {
    var filled := o.filled + f.quantity;
    var leaves := if 0.0 < o.quantity then (if o.quantity < filled then 0.0 else o.quantity - filled) else o.leaves;
    o.(filled := filled, leaves := leaves, average := AverageFillPrice(o, f, filled),
       status := if leaves == 0.0 then Filled else PartiallyFilled, updated := f.timestamp)
  }

  /** Deferred fills are filed under their own order and trade id, so they can be replayed. */
  ghost predicate Replayable(s: Books) {
    forall k :: Filed(Of(s.fills.deferred, k), k)
  }

  ghost function ApplyFill(s: Books, f: Fill): (r: Step)
    ensures Replayable(s) ==> Replayable(r.books)
  {
    if !f.Valid() then Step(s, FillInvalid)
    else if Key(f.account, f.trade) in s.fills.trades then Step(s, FillSkipped)
    else match Target(s.orders, f)
      case None =>
        if f.leg then Step(s.(fills := s.fills.Put(f)), if s.fills.Has(f) then FillSkipped else FillStored)
        else
          assert Replayable(s) ==> Filed(Of(s.fills.deferred, f.At()), f.At());
          assert forall k :: k != f.At() ==> Of(s.fills.Defer(f).deferred, k) == Of(s.fills.deferred, k);
          Step(s.(fills := s.fills.Defer(f)), FillSkipped)
      case Some(o) =>
        if Overfills(o, f) then Step(s, FillOverfills)
        else if s.fills.Has(f) then Step(s, FillSkipped)
        else
          var next := Normalize(FillOrder(o, f));
          if next.Valid() then Step(Books(Stored(s.orders, next), s.fills.Put(f)), FillStored)
          else Step(s.(fills := s.fills.Put(f)), OrderRejected)
  }

  /** Applies fills in turn and stops at the first error. */
  ghost function ApplyFills(s: Books, fills: seq<Fill>): (r: Step)
    ensures Replayable(s) ==> Replayable(r.books)
    decreases |fills|
  {
    if fills == [] then Step(s, FillSkipped)
    else
      var first := ApplyFill(s, fills[0]);
      if first.outcome.IsError() then first else ApplyFills(first.books, fills[1..])
  }

  predicate TransitionAllowed(orders: Orders, r: Order) {
    r.At() in orders && orders[r.At()].status.IsTerminal() ==> orders[r.At()].status == r.status
  }

  ghost function ApplyOrderReport(s: Books, r: Order): (t: Step)
    requires Replayable(s)
    ensures Replayable(t.books)
  {
    if !r.Valid() || !TransitionAllowed(s.orders, r) || !Normalize(r).Valid() then Step(s, OrderRejected)
    else
      assert Filed(Of(s.fills.deferred, r.At()), r.At());
      var replay := ApplyFills(s.(orders := Stored(s.orders, Normalize(r))), Listing(Of(s.fills.deferred, r.At())));
      if replay.outcome.IsError() then replay
      else
        var cleared := replay.books.fills.ClearDeferred(r.At());
        assert forall k :: k != r.At() ==> Of(cleared.deferred, k) == Of(replay.books.fills.deferred, k);
        Step(replay.books.(fills := cleared), FillSkipped)
  }

  // ----- What one fill and one report do -----

  /** A fill is refused exactly if it is invalid or would overfill its order, and then nothing at all has changed. */
  lemma FillRefusedIff(s: Books, f: Fill)
    requires WellKeyed(s.orders)
    ensures ApplyFill(s, f).outcome.IsError() <==>
              || !f.Valid()
              || (&& Key(f.account, f.trade) !in s.fills.trades && Target(s.orders, f).Some?
                  && var o := Target(s.orders, f).value; 0.0 < o.quantity < o.filled + f.quantity)
    ensures ApplyFill(s, f).outcome.IsError() ==> ApplyFill(s, f).books == s
  {
    var target := Target(s.orders, f);
    if f.Valid() && target.Some? && !Overfills(target.value, f) { FilledValid(target.value, f); }
  }

  lemma FilledValid(o: Order, f: Fill)
    requires o.Valid() && f.Valid() && !(0.0 < o.quantity < o.filled + f.quantity)
    ensures Normalize(FillOrder(o, f)).Valid()
  {
  }

  /** The order that a fill makes of `o`: its quantity, value, time and status, and nothing else. */
  ghost predicate Absorbs(o: Order, f: Fill, p: Order) {
    && p == o.(filled := p.filled, leaves := p.leaves, average := p.average, status := p.status, updated := p.updated)
    && p.filled == o.filled + f.quantity && p.updated == f.timestamp
    && (o.filled != 0.0 && o.average != 0.0 ==> p.average * p.filled == o.average * o.filled + f.price * f.quantity)
    && (o.filled == 0.0 || o.average == 0.0 ==> p.average == f.price)
    // An order of known quantity is filled when nothing of it is left; one of unknown quantity when none was left.
    && (if 0.0 < o.quantity then p.leaves + p.filled == o.quantity && (p.status.Filled? <==> p.filled == o.quantity)
        else p.status.Filled? <==> o.leaves == 0.0)
    && (p.status.Filled? || p.status.PartiallyFilled?)
  }

  lemma FillAbsorbed(o: Order, f: Fill)
    requires o.Valid() && f.Valid() && !(0.0 < o.quantity < o.filled + f.quantity)
    ensures Absorbs(o, f, Normalize(FillOrder(o, f)))
  {
  }

  /** An accepted fill of a known order is applied to it and stored. */
  lemma FillOfKnown(s: Books, f: Fill, o: Order, t: Books)
    requires WellKeyed(s.orders) && s.fills.Exact() && !ApplyFill(s, f).outcome.IsError() && t == ApplyFill(s, f).books
    requires Key(f.account, f.trade) !in s.fills.trades && Target(s.orders, f) == Some(o)
    ensures ApplyFill(s, f).outcome.FillStored? && Files(s.fills, f, t.fills)
    ensures o.At() in t.orders && Absorbs(o, f, t.orders[o.At()]) && t.orders == Stored(s.orders, t.orders[o.At()])
  {
    s.fills.PutExact(f);
    FilledValid(o, f);
    FillAbsorbed(o, f);
    PutFiles(s.fills, f);
  }

  /** One whose trade is known changes nothing; one of an unknown order is stored if it is a leg and waits if not. */
  lemma FillOfUnknown(s: Books, f: Fill, t: Books)
    requires s.fills.Exact() && f.Valid() && t == ApplyFill(s, f).books
    requires Key(f.account, f.trade) in s.fills.trades || Target(s.orders, f).None?
    ensures t.orders == s.orders
    ensures if Key(f.account, f.trade) in s.fills.trades then t.fills == s.fills
            else if f.leg then Files(s.fills, f, t.fills) else Awaits(s.fills, f, t.fills)
    ensures ApplyFill(s, f).outcome.FillStored? <==> f.leg && Key(f.account, f.trade) !in s.fills.trades
  {
    if Key(f.account, f.trade) !in s.fills.trades {
      s.fills.PutExact(f);
      PutFiles(s.fills, f);
    }
  }

  lemma PutFiles(b: FillBook, f: Fill)
    requires !b.Has(f)
    ensures Files(b, f, b.Put(f))
  {
  }

  /** The fill is stored under its order and its trade id, and nothing else of the book has changed. */
  ghost predicate Files(b: FillBook, f: Fill, c: FillBook) {
    && c.deferred == b.deferred && c.trades == b.trades[Key(f.account, f.trade) := f]
    && forall k :: Of(c.stored, k) == if k == f.At() then Of(b.stored, k)[f.trade := f] else Of(b.stored, k)
  }

  /** The fill waits under its order, and nothing else of the book has changed. */
  ghost predicate Awaits(b: FillBook, f: Fill, c: FillBook) {
    && c.stored == b.stored && c.trades == b.trades
    && forall k :: Of(c.deferred, k) == if k == f.At() && !b.Defers(f) then Of(b.deferred, k)[f.trade := f]
                                        else Of(b.deferred, k)
  }

  const ENDED := {Denied, Filled, Canceled, Rejected, Expired}

  /** The report is valid, and does not give an order that has ended another status. */
  predicate Admissible(orders: Orders, r: Order) {
    r.Valid() && !(r.At() in orders && orders[r.At()].status in ENDED && orders[r.At()].status != r.status)
  }

  /** An inadmissible report changes nothing; any other one is stored, and with no fills waiting that is all. */
  lemma ReportAdmitted(s: Books, r: Order)
    requires Replayable(s)
    ensures !Admissible(s.orders, r) ==> ApplyOrderReport(s, r) == Step(s, OrderRejected)
    ensures Admissible(s.orders, r) && Of(s.fills.deferred, r.At()) == map[] ==>
              ApplyOrderReport(s, r) ==
                Step(Books(Stored(s.orders, Normalize(r)), s.fills.ClearDeferred(r.At())), FillSkipped)
  {
    AdmissibleIff(s.orders, r);
    if Admissible(s.orders, r) && Of(s.fills.deferred, r.At()) == map[] { ReportAlone(s, r); }
  }

  lemma AdmissibleIff(orders: Orders, r: Order)
    ensures Admissible(orders, r) <==> r.Valid() && TransitionAllowed(orders, r)
    ensures r.Valid() ==> Normalize(r).Valid()
  {
  }

  lemma FillKeepsOrder(s: Books, f: Fill, k: Key)
    requires WellKeyed(s.orders) && k in s.orders && f.At() == k
    ensures WellKeyed(ApplyFill(s, f).books.orders) && k in ApplyFill(s, f).books.orders
    ensures ApplyFill(s, f).books.fills.deferred == s.fills.deferred
  {
  }

  lemma {:induction false} FillsKeepOrder(s: Books, fills: seq<Fill>, k: Key)
    requires WellKeyed(s.orders) && k in s.orders && forall f :: f in fills ==> f.At() == k
    ensures k in ApplyFills(s, fills).books.orders && ApplyFills(s, fills).books.fills.deferred == s.fills.deferred
    decreases |fills|
  {
    if fills != [] {
      assert fills[0] in fills;
      FillKeepsOrder(s, fills[0], k);
      if !ApplyFill(s, fills[0]).outcome.IsError() {
        FillsKeepOrder(ApplyFill(s, fills[0]).books, fills[1..], k);
      }
    }
  }

  /** An admissible report leaves its order in the cache whatever becomes of the waiting fills; they wait on if one of
      them is refused, and are done with if none is. */
  lemma ReportKeepsOrder(s: Books, r: Order)
    requires Replayable(s) && WellKeyed(s.orders) && Admissible(s.orders, r)
    ensures var t := ApplyOrderReport(s, r);
            && r.At() in t.books.orders
            && Of(t.books.fills.deferred, r.At()) ==
                 if t.outcome.IsError() then Of(s.fills.deferred, r.At()) else map[]
  {
    var waiting := Of(s.fills.deferred, r.At());
    assert Filed(waiting, r.At());
    FillsKeepOrder(s.(orders := Stored(s.orders, Normalize(r))), Listing(waiting), r.At());
  }

  // ----- Arrival order -----

  /** The order that a report and a set of distinct fills describe, whatever the order they came in. */
  ghost function Canonical(r: Order, g: ByTrade): Order {
    if Quantity(g) == 0.0 then Normalize(r)
    else r.(filled := Quantity(g), leaves := r.quantity - Quantity(g), average := Notional(g) / Quantity(g),
            status := if Quantity(g) == r.quantity then Filled else PartiallyFilled)
  }

  predicate SameButTime(o: Order, p: Order) {
    o == p.(updated := o.updated)
  }

  predicate Opening(r: Order) {
    r.Valid() && r.filled == 0.0 && 0.0 < r.quantity && !r.status.Filled?
  }

  lemma Positive(g: ByTrade)
    requires Booked(g)
    ensures 0.0 <= Quantity(g) && 0.0 <= Notional(g)
    ensures g != map[] ==> 0.0 < Quantity(g) && 0.0 < Notional(g)
  {
    QuantityMonotone(map[], g);
    forall t | t in g ensures 0.0 < Worth(g[t]) { ProductPositive(g[t].price, g[t].quantity); }
    if g != map[] {
      var t :| t in g;
      assert t in Notionals(g);
    }
    Sums.TotalMonotone(map[], Notionals(g));
  }

  lemma ProductPositive(x: real, y: real)
    requires 0.0 < x && 0.0 < y
    ensures 0.0 < x * y
  {
  }

  lemma AverageStep(o: Order, f: Fill, notional: real)
    requires 0.0 < o.filled && 0.0 < notional && o.average == notional / o.filled && 0.0 < f.quantity
    ensures AverageFillPrice(o, f, o.filled + f.quantity) == (notional + Worth(f)) / (o.filled + f.quantity)
  {
    QuotientPositive(notional, o.filled);
    assert o.average * o.filled == notional;
  }

  lemma TimesQuotient(p: real, q: real)
    requires q != 0.0
    ensures p * q / q == p
  {
  }

  /** The running average is the volume-weighted average price of the fills so far. */
  lemma AverageCanonical(g: ByTrade, o: Order, f: Fill)
    requires Booked(g) && 0.0 < f.quantity && f.trade !in g && o.filled == Quantity(g)
    requires g != map[] ==> Quantity(g) != 0.0 && o.average == Notional(g) / Quantity(g)
    ensures Quantity(g[f.trade := f]) == o.filled + f.quantity != 0.0
    ensures AverageFillPrice(o, f, o.filled + f.quantity) == Notional(g[f.trade := f]) / Quantity(g[f.trade := f])
  {
    Positive(g);
    QuantityAdd(g, f);
    if g == map[] {
      TimesQuotient(f.price, f.quantity);
    } else {
      AverageStep(o, f, Notional(g));
    }
  }

  lemma QuotientPositive(n: real, q: real)
    requires 0.0 < n && 0.0 < q
    ensures 0.0 < n / q
  {
  }

  /** What one order sees of the manager: whether it is known, and which of its trades went where. */
  datatype Local = Local(known: bool, applied: set<Id>, stored: set<Id>, deferred: set<Id>) {
    function Fill(f: Fill): Local {
      if f.trade in stored then this
      else if known then this.(applied := applied + {f.trade}, stored := stored + {f.trade})
      else if f.leg then this.(stored := stored + {f.trade})
      else this.(deferred := deferred + {f.trade})
    }

    function Fills(fills: seq<Fill>): Local
      decreases |fills|
    {
      if fills == [] then this else Fill(fills[0]).Fills(fills[1..])
    }
  }

  ghost predicate From(fills: seq<Fill>, g: ByTrade) {
    forall f :: f in fills ==> f.trade in g && g[f.trade] == f
  }

  ghost function Ids(fills: seq<Fill>): set<Id> {
    set f | f in fills :: f.trade
  }

  ghost function LegIds(fills: seq<Fill>): set<Id> {
    set f | f in fills && f.leg :: f.trade
  }

  ghost function PlainIds(fills: seq<Fill>): set<Id> {
    set f | f in fills && !f.leg :: f.trade
  }

  lemma IdsCons(fills: seq<Fill>)
    requires fills != []
    ensures Ids(fills) == {fills[0].trade} + Ids(fills[1..])
    ensures LegIds(fills) == (if fills[0].leg then {fills[0].trade} else {}) + LegIds(fills[1..])
    ensures PlainIds(fills) == (if fills[0].leg then {} else {fills[0].trade}) + PlainIds(fills[1..])
  {
    assert forall f :: f in fills <==> f == fills[0] || f in fills[1..];
  }

  /** Before its order is known, a plain fill is deferred and a leg fill is stored. */
  lemma {:induction false} BeforeReport(g: ByTrade, l: Local, fills: seq<Fill>)
    requires From(fills, g) && !l.known && forall t :: t in l.stored && t in g ==> g[t].leg
    ensures l.Fills(fills) == l.(stored := l.stored + LegIds(fills), deferred := l.deferred + PlainIds(fills))
    decreases |fills|
  {
    if fills == [] {
      assert l.stored + LegIds(fills) == l.stored && l.deferred + PlainIds(fills) == l.deferred;
    } else {
      var next := l.Fill(fills[0]);
      IdsCons(fills);
      BeforeReport(g, next, fills[1..]);
      assert next.stored + LegIds(fills[1..]) == l.stored + LegIds(fills);
      assert next.deferred + PlainIds(fills[1..]) == l.deferred + PlainIds(fills);
    }
  }

  /** Once its order is known, every trade not yet stored reaches the order exactly once. */
  lemma {:induction false} AfterReport(l: Local, fills: seq<Fill>)
    requires l.known
    ensures l.Fills(fills) == l.(stored := l.stored + Ids(fills), applied := l.applied + (Ids(fills) - l.stored))
    decreases |fills|
  {
    if fills == [] {
      assert l.stored + Ids(fills) == l.stored && l.applied + (Ids(fills) - l.stored) == l.applied;
    } else {
      var next := l.Fill(fills[0]);
      IdsCons(fills);
      AfterReport(next, fills[1..]);
      assert next.stored + Ids(fills[1..]) == l.stored + Ids(fills);
      assert next.applied + (Ids(fills[1..]) - next.stored) == l.applied + (Ids(fills) - l.stored);
    }
  }

  // ----- The order's view is enough -----

  /** The fills of `g` with the given trade ids. */
  ghost function Pick(g: ByTrade, ids: set<Id>): ByTrade {
    map t | t in g && t in ids :: g[t]
  }

  lemma PickAdd(g: ByTrade, ids: set<Id>, f: Fill)
    requires f.trade in g && g[f.trade] == f
    ensures Pick(g, ids + {f.trade}) == Pick(g, ids)[f.trade := f]
  {
  }

  /** A report and distinct trades of its order, about to arrive in some order at a manager in state `start`. */
  datatype Case = Case(start: Books, report: Order, trades: ByTrade) {
    /** The fill carries the id of the order or, under an order id nobody knows, the client id of the order. */
    predicate Concerns(f: Fill) {
      && f.account == report.account
      && (f.order == report.order || (f.client == report.client != NO_ID && f.At() !in start.orders))
    }

    ghost predicate Apt() {
      // The report opens the order and the trades, all of that order, do not overfill it.
      && Opening(report) && Booked(trades) && Quantity(trades) <= report.quantity
      // Neither the order nor its trades are known.
      && report.At() !in start.orders && Replayable(start) && Of(start.fills.deferred, report.At()) == map[]
      && forall t :: t in trades ==>
           Concerns(trades[t]) && Key(report.account, t) !in start.fills.trades && !start.fills.Has(trades[t])
    }

    /** The fill carries the id of the order, and no order known at the start answers to its client id. */
    ghost predicate Addressed(f: Fill) {
      f.order == report.order && ByClient(start.orders, Key(report.account, f.client)).None?
    }

    ghost predicate Good() {
      Apt() && forall t :: t in trades ==> Addressed(trades[t])
    }

    /** The fills stored under the order once the given trades are. */
    ghost function StoredWith(ids: set<Id>): ByTrade {
      Of(start.fills.stored, report.At()) + Pick(trades, ids)
    }

    predicate Includes(f: Fill) {
      f.trade in trades && trades[f.trade] == f
    }

    /** The cached order is the one that the report and the applied fills describe. */
    ghost predicate Describes(l: Local, orders: Orders) {
      if l.known then
        report.At() in orders && SameButTime(orders[report.At()], Canonical(report, Pick(trades, l.applied)))
      else orders == start.orders
    }

    /** The stored, indexed and deferred trades of the order are the ones `l` lists. */
    ghost predicate Holds(l: Local, b: FillBook) {
      && Of(b.stored, report.At()) == StoredWith(l.stored) && Of(b.deferred, report.At()) == Pick(trades, l.deferred)
      && forall t :: t in trades ==> (Key(report.account, t) in b.trades <==> t in l.stored)
    }

    ghost function Compare(l: Local, s: Books): Comparison {
      if Describes(l, s.orders) && Holds(l, s.fills) then Agrees else Differs
    }

    ghost predicate Sees(l: Local, s: Books) {
      Compare(l, s).Agrees?
    }
  }

  /** Whether a view of the order fits the state of the manager. */
  datatype Comparison = Agrees | Differs

  type Arrivals = c: Case | c.Good()
    ghost witness Case(Books(map[], FillBook(map[], map[], map[])),
                       Order(1, 1, 1, 0, 0, 0, 0, 0, 0, Accepted, Buy, NoContingency, 1.0, 0.0, 0.0, 0.0, 0), map[])

  /** Reports and fills at a cache that files every order under its own id. */
  type Mixed = c: Case | c.Apt() && WellKeyed(c.start.orders)
    ghost witness Case(Books(map[], FillBook(map[], map[], map[])),
                       Order(1, 1, 1, 0, 0, 0, 0, 0, 0, Accepted, Buy, NoContingency, 1.0, 0.0, 0.0, 0.0, 0), map[])

  /** A fill of the order is known by its trade id exactly when it is stored. */
  lemma BookKnows(c: Arrivals, l: Local, s: Books, f: Fill)
    requires c.Sees(l, s) && c.Includes(f)
    ensures Key(f.account, f.trade) in s.fills.trades <==> f.trade in l.stored
    ensures s.fills.Has(f) <==> f.trade in l.stored
  {
  }

  lemma StoredAdd(c: Arrivals, ids: set<Id>, f: Fill)
    requires c.Includes(f)
    ensures c.StoredWith(ids + {f.trade}) == c.StoredWith(ids)[f.trade := f]
  {
    PickAdd(c.trades, ids, f);
  }

  lemma BookPuts(c: Arrivals, l: Local, s: Books, f: Fill)
    requires c.Sees(l, s) && c.Includes(f) && f.trade !in l.stored
    ensures c.Holds(l.(stored := l.stored + {f.trade}), s.fills.Put(f))
  {
    BookKnows(c, l, s, f);
    StoredAdd(c, l.stored, f);
  }

  lemma BookDefers(c: Arrivals, l: Local, s: Books, f: Fill)
    requires c.Sees(l, s) && c.Includes(f)
    ensures c.Holds(l.(deferred := l.deferred + {f.trade}), s.fills.Defer(f))
  {
    PickAdd(c.trades, l.deferred, f);
    if s.fills.Defers(f) { assert l.deferred + {f.trade} == l.deferred; }
  }

  lemma FillSeenBefore(c: Arrivals, l: Local, s: Books, f: Fill)
    requires c.Sees(l, s) && c.Includes(f) && !l.known
    ensures !ApplyFill(s, f).outcome.IsError() && c.Sees(l.Fill(f), ApplyFill(s, f).books)
  {
    assert Target(s.orders, f).None?;
    BookKnows(c, l, s, f);
    if f.trade !in l.stored {
      BookPuts(c, l, s, f);
      BookDefers(c, l, s, f);
    }
  }

  /** One more distinct fill takes the order that some fills describe to the one that they and the fill describe. */
  lemma CanonicalStep(r: Order, trades: ByTrade, ids: set<Id>, o: Order, f: Fill)
    requires Opening(r) && Booked(trades) && Quantity(trades) <= r.quantity
    requires SameButTime(o, Canonical(r, Pick(trades, ids)))
    requires f.trade in trades && trades[f.trade] == f && f.trade !in ids
    ensures SameButTime(FillOrder(o, f), Canonical(r, Pick(trades, ids + {f.trade})))
    ensures !Overfills(o, f) && Normalize(FillOrder(o, f)) == FillOrder(o, f) && FillOrder(o, f).Valid()
  {
    var g := Pick(trades, ids);
    PickAdd(trades, ids, f);
    Positive(g);
    QuantityMonotone(g, trades);
    CanonicalShape(r, g, o);
    AverageCanonical(g, o, f);
    QuantityMonotone(g[f.trade := f], trades);
    CanonicalFill(r, g[f.trade := f], o, f);
  }

  lemma CanonicalShape(r: Order, g: ByTrade, o: Order)
    requires Opening(r) && SameButTime(o, Canonical(r, g)) && 0.0 <= Quantity(g) <= r.quantity
    ensures o.Valid() && o == r.(filled := o.filled, leaves := o.leaves, average := o.average, status := o.status,
                updated := o.updated)
    ensures o.filled == Quantity(g) && (Quantity(g) != 0.0 ==> o.average == Notional(g) / Quantity(g))
  {
  }

  lemma CanonicalFill(r: Order, g: ByTrade, o: Order, f: Fill)
    requires Opening(r) && o.Valid() && f.Valid()
    requires o == r.(filled := o.filled, leaves := o.leaves, average := o.average, status := o.status,
                 updated := o.updated)
    requires Quantity(g) == o.filled + f.quantity <= r.quantity
    requires AverageFillPrice(o, f, o.filled + f.quantity) == Notional(g) / Quantity(g)
    ensures SameButTime(FillOrder(o, f), Canonical(r, g))
    ensures !Overfills(o, f) && Normalize(FillOrder(o, f)) == FillOrder(o, f) && FillOrder(o, f).Valid()
  {
  }

  lemma AppliedSeen(c: Arrivals, l: Local, s: Books, f: Fill, next: Order)
    requires c.Sees(l, s) && c.Includes(f) && l.known && f.trade !in l.stored && next.At() == f.At()
    requires SameButTime(next, Canonical(c.report, Pick(c.trades, l.applied + {f.trade})))
    ensures c.Sees(l.Fill(f), Books(Stored(s.orders, next), s.fills.Put(f)))
  {
    BookPuts(c, l, s, f);
    assert c.Describes(l.Fill(f), Stored(s.orders, next));
    assert c.Holds(l.Fill(f), s.fills.Put(f));
  }

  /** A new fill whose order is known and has room for it is stored and applied. */
  lemma FillApplies(s: Books, f: Fill, o: Order)
    requires f.Valid() && Key(f.account, f.trade) !in s.fills.trades && !s.fills.Has(f)
    requires Target(s.orders, f) == Some(o)
    requires !Overfills(o, f) && Normalize(FillOrder(o, f)) == FillOrder(o, f) && FillOrder(o, f).Valid()
    ensures ApplyFill(s, f) == Step(Books(Stored(s.orders, FillOrder(o, f)), s.fills.Put(f)), FillStored)
  {
  }

  lemma FillSeenAfter(c: Arrivals, l: Local, s: Books, f: Fill)
    requires c.Sees(l, s) && c.Includes(f) && l.known && l.applied <= l.stored
    ensures !ApplyFill(s, f).outcome.IsError() && c.Sees(l.Fill(f), ApplyFill(s, f).books)
  {
    BookKnows(c, l, s, f);
    if f.trade !in l.stored { NewFillSeen(c, l, s, f, s.orders[f.At()]); }
  }

  lemma NewFillSeen(c: Arrivals, l: Local, s: Books, f: Fill, o: Order)
    requires c.Sees(l, s) && c.Includes(f) && l.known && l.applied <= l.stored && f.trade !in l.stored
    requires f.At() in s.orders && o == s.orders[f.At()]
    ensures !ApplyFill(s, f).outcome.IsError() && c.Sees(l.Fill(f), ApplyFill(s, f).books)
  {
    BookKnows(c, l, s, f);
    CanonicalStep(c.report, c.trades, l.applied, o, f);
    FillApplies(s, f, o);
    AppliedSeen(c, l, s, f, FillOrder(o, f));
  }

  lemma {:induction false} FillsSeen(c: Arrivals, l: Local, s: Books, fills: seq<Fill>)
    requires c.Sees(l, s) && From(fills, c.trades) && l.applied <= l.stored
    ensures var last := ApplyFills(s, fills);
            !last.outcome.IsError() && c.Sees(l.Fills(fills), last.books)
    decreases |fills|
  {
    if fills != [] {
      if l.known { FillSeenAfter(c, l, s, fills[0]); } else { FillSeenBefore(c, l, s, fills[0]); }
      FillsSeen(c, l.Fill(fills[0]), ApplyFill(s, fills[0]).books, fills[1..]);
    }
  }

  // ----- Every interleaving -----

  /** One report among fills: some arrive before it, the others after it. */
  ghost function Run(s: Books, before: seq<Fill>, r: Order, after: seq<Fill>): (t: Step)
    requires Replayable(s)
    ensures Replayable(t.books)
  {
    var first := ApplyFills(s, before);
    if first.outcome.IsError() then first
    else
      var report := ApplyOrderReport(first.books, r);
      if report.outcome.IsError() then report else ApplyFills(report.books, after)
  }

  lemma ListingIds(m: ByTrade, s: seq<Fill>)
    requires Chronological(s, m)
    ensures Ids(s) == m.Keys && From(s, m)
  {
    forall t | t in m ensures t in Ids(s) { assert m[t] in s; }
  }

  lemma BookClears(c: Arrivals, l: Local, s: Books)
    requires c.Sees(l, s)
    ensures c.Sees(l.(deferred := {}), s.(fills := s.fills.ClearDeferred(c.report.At())))
  {
    assert Pick(c.trades, {}) == map[];
  }

  /** The report opens the order, with nothing applied yet. */
  lemma OpeningSeen(c: Arrivals, early: set<Id>, late: set<Id>, s: Books)
    requires c.Sees(Local(false, {}, early, late), s)
    ensures c.Sees(Local(true, {}, early, late), s.(orders := Stored(s.orders, Normalize(c.report))))
  {
    assert Pick(c.trades, {}) == map[];
  }

  /** The deferred fills are replayed into it and cleared. */
  lemma ReplaySeen(c: Arrivals, early: set<Id>, late: set<Id>, s: Books)
    requires c.Sees(Local(true, {}, early, late), s) && early !! late && late <= c.trades.Keys
    ensures var replay := ApplyFills(s, Listing(Pick(c.trades, late)));
            && !replay.outcome.IsError()
            && c.Sees(Local(true, late, early + late, {}),
                      replay.books.(fills := replay.books.fills.ClearDeferred(c.report.At())))
  {
    var listing, open := Listing(Pick(c.trades, late)), Local(true, {}, early, late);
    ReplayedIds(c, early, late, listing);
    FillsSeen(c, open, s, listing);
    BookClears(c, open.Fills(listing), ApplyFills(s, listing).books);
  }

  lemma ReplayedIds(c: Arrivals, early: set<Id>, late: set<Id>, listing: seq<Fill>)
    requires early !! late && late <= c.trades.Keys && listing == Listing(Pick(c.trades, late))
    ensures From(listing, c.trades) && Local(true, {}, early, late).Fills(listing) ==
                Local(true, late, early + late, late)
  {
    ListingIds(Pick(c.trades, late), listing);
    assert Pick(c.trades, late).Keys == late;
    AfterReport(Local(true, {}, early, late), listing);
    assert late - early == late && {} + late == late;
  }

  lemma ReportSeen(c: Arrivals, early: set<Id>, late: set<Id>, s: Books)
    requires Replayable(s) && early !! late && late <= c.trades.Keys
    requires c.Sees(Local(false, {}, early, late), s)
    ensures !ApplyOrderReport(s, c.report).outcome.IsError()
    ensures c.Sees(Local(true, late, early + late, {}), ApplyOrderReport(s, c.report).books)
  {
    OpeningSeen(c, early, late, s);
    ReplaySeen(c, early, late, s.(orders := Stored(s.orders, Normalize(c.report))));
    assert Of(s.fills.deferred, c.report.At()) == Pick(c.trades, late);
  }

  /** Where every interleaving of a report with fills of its order ends: only leg fills that come too early are
      missed. */
  lemma RunSettles(c: Arrivals, before: seq<Fill>, after: seq<Fill>)
    requires From(before, c.trades) && From(after, c.trades)
    ensures var last := Run(c.start, before, c.report, after);
            var l := Local(true, Ids(before) + Ids(after) - LegIds(before), Ids(before) + Ids(after), {});
            !last.outcome.IsError() && c.Sees(l, last.books)
  {
    var nothing := Local(false, {}, {}, {});
    assert Pick(c.trades, {}) == map[];
    FillsSeen(c, nothing, c.start, before);
    BeforeReport(c.trades, nothing, before);
    var early, late := LegIds(before), PlainIds(before);
    assert {} + early == early && {} + late == late && early + late == Ids(before);
    var first := ApplyFills(c.start, before).books;
    ReportSeen(c, early, late, first);
    var known := Local(true, late, early + late, {});
    FillsSeen(c, known, ApplyOrderReport(first, c.report).books, after);
    AfterReport(known, after);
    assert late + (Ids(after) - (early + late)) == Ids(before) + Ids(after) - early;
  }

  /** An interleaving of the report with the trades: duplicates allowed, none left out. */
  ghost predicate Interleaves(c: Case, before: seq<Fill>, after: seq<Fill>) {
    From(before, c.trades) && From(after, c.trades) && Ids(before) + Ids(after) == c.trades.Keys
  }

  /** The order and its fills ended up the same, whatever the time of the last update. */
  ghost predicate SameEnd(k: Key, s: Books, t: Books) {
    && k in s.orders && k in t.orders && SameButTime(s.orders[k], t.orders[k])
    && Of(s.fills.stored, k) == Of(t.fills.stored, k) && Of(s.fills.deferred, k) == Of(t.fills.deferred, k) == map[]
  }

  /** All interleavings end the same. */
  ghost predicate OrderIndependent(c: Case)
    requires c.Apt()
  {
    forall before, after, before', after' :: Interleaves(c, before, after) && Interleaves(c, before', after') ==>
      SameEnd(c.report.At(), Run(c.start, before, c.report, after).books, Run(c.start, before', c.report, after').books)
  }

  /** What the order looks like once all trades are stored and `applied` are in it. */
  ghost predicate Ends(c: Arrivals, applied: set<Id>, s: Books) {
    var k := c.report.At();
    && k in s.orders && SameButTime(s.orders[k], Canonical(c.report, Pick(c.trades, applied)))
    && Of(s.fills.stored, k) == c.StoredWith(c.trades.Keys) && Of(s.fills.deferred, k) == map[]
  }

  lemma SeenEnds(c: Arrivals, applied: set<Id>, s: Books)
    requires c.Sees(Local(true, applied, c.trades.Keys, {}), s)
    ensures Ends(c, applied, s)
  {
    assert Pick(c.trades, c.trades.Keys) == c.trades && Pick(c.trades, {}) == map[];
  }

  /** Every interleaving ends in the order that the trades describe, less the leg fills ahead of the report. */
  lemma RunCanonical(c: Arrivals, before: seq<Fill>, after: seq<Fill>)
    requires Interleaves(c, before, after)
    ensures !Run(c.start, before, c.report, after).outcome.IsError()
    ensures Ends(c, c.trades.Keys - LegIds(before), Run(c.start, before, c.report, after).books)
  {
    RunSettles(c, before, after);
    SeenEnds(c, c.trades.Keys - LegIds(before), Run(c.start, before, c.report, after).books);
  }

  lemma FewerFillLess(c: Arrivals, t: Id)
    requires t in c.trades
    ensures Canonical(c.report, Pick(c.trades, c.trades.Keys - {t})).filled < Canonical(c.report,
                Pick(c.trades, c.trades.Keys)).filled
  {
    var less := Pick(c.trades, c.trades.Keys - {t});
    assert Pick(c.trades, c.trades.Keys) == c.trades && t !in less;
    QuantityMonotone(less, c.trades);
  }

  lemma OneLeg(leg: Fill)
    requires leg.leg
    ensures Ids([leg]) == LegIds([leg]) == {leg.trade} && Ids([]) == LegIds([]) == {}
  {
    assert leg in [leg];
  }

  /** A leg fill that comes before its order is never applied to it. */
  lemma EarlyLegIsMissed(c: Arrivals, leg: Fill)
    requires c.Includes(leg) && leg.leg
    ensures var all := Listing(c.trades);
            && Interleaves(c, [leg], all) && Interleaves(c, [], all)
            && !SameEnd(c.report.At(), Run(c.start, [leg], c.report, all).books, Run(c.start, [], c.report, all).books)
  {
    var all := Listing(c.trades);
    ListingIds(c.trades, all);
    OneLeg(leg);
    assert {leg.trade} + c.trades.Keys == c.trades.Keys && {} + c.trades.Keys == c.trades.Keys - {} == c.trades.Keys;
    RunCanonical(c, [leg], all);
    RunCanonical(c, [], all);
    FewerFillLess(c, leg.trade);
  }

  // ----- Fills that miss the order when they come first -----

  /** After the report, the trades in `ids` are in the order, and the order alone answers to its client id. */
  ghost function Late(c: Mixed, ids: set<Id>, s: Books): Comparison {
    var k := c.report.At();
    if && k in s.orders && SameButTime(s.orders[k], Canonical(c.report, Pick(c.trades, ids))) && Alone(c, s.orders)
       && Lists(c.report.account, c.trades, ids, s.fills)
    then Agrees else Differs
  }

  ghost predicate Lists(account: Id, trades: ByTrade, ids: set<Id>, b: FillBook) {
    forall t :: t in trades ==> (Key(account, t) in b.trades <==> t in ids) && (b.Has(trades[t]) <==> t in ids)
  }

  ghost predicate Alone(c: Mixed, orders: Orders) {
    forall k :: k in orders && k != c.report.At() ==>
      && k in c.start.orders && orders[k].account == k.account
      && (k.account == c.report.account && orders[k].client == c.report.client ==> c.report.client == NO_ID)
  }

  lemma AloneAnswers(c: Mixed, orders: Orders, f: Fill)
    requires Alone(c, orders) && c.Concerns(f) && c.report.At() in orders
    requires orders[c.report.At()].client == c.report.client
    ensures Target(orders, f) == Some(orders[c.report.At()])
  {
    if f.order != c.report.order {
      var name := Key(f.account, f.client);
      assert Names(orders, ClientAlias, name, c.report.At());
      forall k | Names(orders, ClientAlias, name, k) ensures k == c.report.At() {
      }
    }
  }

  lemma StaysAlone(c: Mixed, orders: Orders, o: Order)
    requires Alone(c, orders) && o.At() == c.report.At()
    ensures Alone(c, Stored(orders, o))
  {
  }

  lemma LatePut(c: Mixed, ids: set<Id>, s: Books, f: Fill, next: Order)
    requires Late(c, ids, s).Agrees? && c.Includes(f) && f.trade !in ids && next.At() == c.report.At()
    requires SameButTime(next, Canonical(c.report, Pick(c.trades, ids + {f.trade})))
    ensures Late(c, ids + {f.trade}, Books(Stored(s.orders, next), s.fills.Put(f))).Agrees?
  {
    StaysAlone(c, s.orders, next);
    ListsPut(c.report.account, c.trades, ids, s.fills, f);
  }

  lemma ListsPut(account: Id, trades: ByTrade, ids: set<Id>, b: FillBook, f: Fill)
    requires Lists(account, trades, ids, b) && (forall t :: t in trades ==> trades[t].trade == t)
    requires f.trade in trades && trades[f.trade] == f && f.account == account && f.trade !in ids
    ensures Lists(account, trades, ids + {f.trade}, b.Put(f))
  {
  }

  lemma LateFill(c: Mixed, ids: set<Id>, s: Books, f: Fill)
    requires Late(c, ids, s).Agrees? && c.Includes(f)
    ensures !ApplyFill(s, f).outcome.IsError() && Late(c, ids + {f.trade}, ApplyFill(s, f).books).Agrees?
  {
    if f.trade in ids {
      assert ids + {f.trade} == ids;
    } else {
      LateNew(c, ids, s, f);
    }
  }

  lemma LateNew(c: Mixed, ids: set<Id>, s: Books, f: Fill)
    requires Late(c, ids, s).Agrees? && c.Includes(f) && f.trade !in ids
    ensures !ApplyFill(s, f).outcome.IsError() && Late(c, ids + {f.trade}, ApplyFill(s, f).books).Agrees?
  {
    var o := s.orders[c.report.At()];
    CanonicalStep(c.report, c.trades, ids, o, f);
    AloneAnswers(c, s.orders, f);
    FillApplies(s, f, o);
    LatePut(c, ids, s, f, FillOrder(o, f));
  }

  lemma {:induction false} LateFills(c: Mixed, ids: set<Id>, s: Books, fills: seq<Fill>)
    requires Late(c, ids, s).Agrees? && From(fills, c.trades)
    ensures !ApplyFills(s, fills).outcome.IsError() && Late(c, ids + Ids(fills), ApplyFills(s, fills).books).Agrees?
    decreases |fills|
  {
    if fills == [] {
      assert ids + Ids(fills) == ids;
    } else {
      LateFill(c, ids, s, fills[0]);
      LateFills(c, ids + {fills[0].trade}, ApplyFill(s, fills[0]).books, fills[1..]);
      IdsCons(fills);
      assert ids + {fills[0].trade} + Ids(fills[1..]) == ids + Ids(fills);
    }
  }

  /** With no fills waiting for it, an allowed report just stores the order. */
  lemma ReportAlone(s: Books, r: Order)
    requires Replayable(s) && r.Valid() && Normalize(r).Valid() && Of(s.fills.deferred, r.At()) == map[]
    ensures ApplyOrderReport(s, r) ==
              if TransitionAllowed(s.orders, r)
              then Step(Books(Stored(s.orders, Normalize(r)), s.fills.ClearDeferred(r.At())), FillSkipped)
              else Step(s, OrderRejected)
  {
    assert Listing(Of(s.fills.deferred, r.At())) == [];
  }

  lemma ReportFirst(c: Mixed)
    ensures !ApplyOrderReport(c.start, c.report).outcome.IsError()
    ensures Late(c, {}, ApplyOrderReport(c.start, c.report).books).Agrees?
  {
    assert Pick(c.trades, {}) == map[];
    ReportAlone(c.start, c.report);
    assert Alone(c, Stored(c.start.orders, Normalize(c.report)));
  }

  /** The order is the one that all of the trades describe. */
  ghost predicate Whole(c: Mixed, s: Books) {
    && c.report.At() in s.orders && SameButTime(s.orders[c.report.At()], Canonical(c.report, c.trades))
    && forall t :: t in c.trades ==> s.fills.Has(c.trades[t])
  }

  lemma LateWhole(c: Mixed, ids: set<Id>, s: Books)
    requires ids == c.trades.Keys && Late(c, ids, s).Agrees?
    ensures Whole(c, s)
  {
    assert Pick(c.trades, ids) == c.trades;
  }

  lemma WholeFilled(c: Mixed, s: Books)
    requires Whole(c, s)
    ensures s.orders[c.report.At()].filled == Quantity(c.trades)
  {
  }

  /** Behind the report, every fill reaches the order, however it is addressed. */
  lemma LateCanonical(c: Mixed, after: seq<Fill>)
    requires From(after, c.trades) && Ids(after) == c.trades.Keys
    ensures !Run(c.start, [], c.report, after).outcome.IsError()
    ensures Whole(c, Run(c.start, [], c.report, after).books)
  {
    ReportFirst(c);
    var known := ApplyOrderReport(c.start, c.report).books;
    LateFills(c, {}, known, after);
    LateWhole(c, {} + Ids(after), ApplyFills(known, after).books);
  }

  /** Stored or deferred under an order, a fill leaves the other trades as they were. */
  lemma LeavesOthers(c: Mixed, f: Fill, book: FillBook)
    requires c.Includes(f) && (book == c.start.fills.Put(f) || book == c.start.fills.Defer(f))
    ensures forall t :: t in c.trades - {f.trade} ==>
              Key(c.report.account, t) !in book.trades && !book.Has((c.trades - {f.trade})[t])
    ensures book == c.start.fills.Put(f) || f.order != c.report.order ==> Of(book.deferred, c.report.At()) == map[]
  {
  }

  /** The trades but one, at a manager that took that one elsewhere. */
  lemma RestApt(c: Mixed, f: Fill, s: Books)
    requires c.Includes(f) && c.report.At() !in s.orders && Replayable(s) && WellKeyed(s.orders)
    requires s.orders.Keys <= c.start.orders.Keys && Of(s.fills.deferred, c.report.At()) == map[]
    requires forall t :: t in c.trades - {f.trade} ==>
               Key(c.report.account, t) !in s.fills.trades && !s.fills.Has((c.trades - {f.trade})[t])
    ensures Case(s, c.report, c.trades - {f.trade}).Apt()
  {
    QuantityMonotone(c.trades - {f.trade}, c.trades);
    var rest := Case(s, c.report, c.trades - {f.trade});
    forall t | t in rest.trades ensures rest.Concerns(rest.trades[t]) { assert c.Concerns(c.trades[t]); }
  }

  /** Ahead of the report, a leg fill or one not addressed to the order goes elsewhere. */
  lemma GoesElsewhere(c: Mixed, f: Fill)
    requires c.Includes(f) && (f.leg || !c.Addressed(f))
    ensures var first := ApplyFill(c.start, f);
            && c.report.At() !in first.books.orders && first.books.orders.Keys <= c.start.orders.Keys
            && WellKeyed(first.books.orders)
            && (first.outcome.IsError()
                || first.books.fills == c.start.fills.Put(f)
                || (first.books.fills == c.start.fills.Defer(f) && f.order != c.report.order))
  {
  }

  lemma RestMixed(c: Mixed, f: Fill) returns (rest: Mixed)
    requires c.Includes(f) && (f.leg || !c.Addressed(f)) && !ApplyFill(c.start, f).outcome.IsError()
    ensures rest == Case(ApplyFill(c.start, f).books, c.report, c.trades - {f.trade})
  {
    GoesElsewhere(c, f);
    var s := ApplyFill(c.start, f).books;
    LeavesOthers(c, f, s.fills);
    RestApt(c, f, s);
    rest := Case(s, c.report, c.trades - {f.trade});
  }

  lemma OneThenRun(s: Books, f: Fill, r: Order, rest: seq<Fill>)
    requires Replayable(s)
    ensures var first := ApplyFill(s, f);
            Run(s, [f], r, rest) == if first.outcome.IsError() then first else Run(first.books, [], r, rest)
  {
    var first := ApplyFill(s, f);
    assert [f][1..] == [];
    assert ApplyFills(s, [f]) == if first.outcome.IsError() then first else Step(first.books, FillSkipped);
  }

  /** The trades that are left, behind the report, do not bring it back. */
  lemma NeverReaches(c: Mixed, f: Fill, rest: seq<Fill>)
    requires c.Includes(f) && (f.leg || !c.Addressed(f))
    requires From(rest, c.trades - {f.trade}) && Ids(rest) == c.trades.Keys - {f.trade}
    ensures var end := Run(c.start, [f], c.report, rest).books.orders; var k := c.report.At();
            k in end ==> end[k].filled == Quantity(c.trades - {f.trade})
  {
    GoesElsewhere(c, f);
    OneThenRun(c.start, f, c.report, rest);
    if !ApplyFill(c.start, f).outcome.IsError() {
      var less := RestMixed(c, f);
      LateCanonical(less, rest);
      WholeFilled(less, Run(less.start, [], c.report, rest).books);
    }
  }

  lemma SplitInterleaves(c: Case, f: Fill, all: seq<Fill>, rest: seq<Fill>)
    requires c.Includes(f) && From(all, c.trades) && Ids(all) == c.trades.Keys
    requires From(rest, c.trades - {f.trade}) && Ids(rest) == c.trades.Keys - {f.trade}
    ensures Interleaves(c, [], all) && Interleaves(c, [f], rest)
  {
    OneId(f);
    assert {} + c.trades.Keys == {f.trade} + (c.trades.Keys - {f.trade}) == c.trades.Keys;
  }

  /** Such a fill counts behind the report and not ahead of it. */
  lemma EarlyIsMissed(c: Mixed, f: Fill)
    requires c.Includes(f) && (f.leg || !c.Addressed(f))
    ensures var all, rest := Listing(c.trades), Listing(c.trades - {f.trade});
            && Interleaves(c, [], all) && Interleaves(c, [f], rest)
            && !SameEnd(c.report.At(), Run(c.start, [f], c.report, rest).books, Run(c.start, [], c.report, all).books)
  {
    var all, rest := Listing(c.trades), Listing(c.trades - {f.trade});
    ListingIds(c.trades, all);
    ListingIds(c.trades - {f.trade}, rest);
    SplitInterleaves(c, f, all, rest);
    NeverReaches(c, f, rest);
    LateCanonical(c, all);
    WholeFilled(c, Run(c.start, [], c.report, all).books);
    QuantityMonotone(c.trades - {f.trade}, c.trades);
  }

  /** A fill of one order that carries the client id of another fills the other, when it comes first. */
  lemma EarlyFillsOther(c: Mixed, f: Fill)
    requires c.Includes(f) && ByClient(c.start.orders, Key(f.account, f.client)).Some?
    ensures var o := ByClient(c.start.orders, Key(f.account, f.client)).value;
            var first := ApplyFill(c.start, f);
            first.outcome.FillStored? ==>
              o.At() in first.books.orders && first.books.orders[o.At()].filled == o.filled + f.quantity
  {
  }

  /** A fill that names the order by client id alone waits, ahead of the report, under an order that never comes: the
      report leaves it there. */
  lemma StrayWaits(c: Mixed, f: Fill)
    requires c.Includes(f) && !f.leg && f.order != c.report.order
    requires ByClient(c.start.orders, Key(f.account, f.client)).None?
    ensures var end := Run(c.start, [f], c.report, []).books;
            c.report.At() in end.orders && end.orders[c.report.At()].filled == 0.0 && end.fills.Defers(f)
  {
    var first := c.start.(fills := c.start.fills.Defer(f));
    assert ApplyFills(c.start, [f]) == Step(first, FillSkipped);
    ReportAlone(first, c.report);
  }

  /** Such a fill under order id 9 with the client id of order 1: counted behind the report of order 1, lost ahead. */
  lemma StrayIsLost(s: Books, r: Order, f: Fill)
    requires s == Books(map[], FillBook(map[], map[], map[]))
    requires r == Order(1, 1, 1, 5, 0, 0, 0, 0, 0, Accepted, Buy, NoContingency, 2.0, 0.0, 0.0, 0.0, 0)
    requires f == Fill(1, 1, 9, 0, 5, 7, 0, false, Buy, 100.0, 1.0, 0.0, 0)
    ensures var early := Run(s, [f], r, []).books;
            r.At() in early.orders && early.orders[r.At()].filled == 0.0 && early.fills.Defers(f)
    ensures var late := Run(s, [], r, [f]).books;
            r.At() in late.orders && late.orders[r.At()].filled == 1.0 && late.fills.Has(f)
  {
    OneTrade(f);
    OneId(f);
    var c: Mixed := Case(s, r, map[7 := f]);
    StrayWaits(c, f);
    LateCanonical(c, [f]);
    WholeFilled(c, Run(s, [], r, [f]).books);
  }

  lemma OneTrade(f: Fill)
    ensures Quantity(map[f.trade := f]) == f.quantity
  {
    QuantityAdd(map[], f);
    assert map[][f.trade := f] == map[f.trade := f];
  }

  lemma OneId(f: Fill)
    ensures Ids([f]) == {f.trade} && Ids([]) == {}
  {
    assert f in [f];
  }

  lemma AddressedAlike(c: Arrivals, before: seq<Fill>, after: seq<Fill>, before': seq<Fill>, after': seq<Fill>)
    requires Interleaves(c, before, after) && Interleaves(c, before', after')
    requires forall t :: t in c.trades ==> !c.trades[t].leg
    ensures SameEnd(c.report.At(), Run(c.start, before, c.report, after).books,
                Run(c.start, before', c.report, after').books)
  {
    assert LegIds(before) == {} == LegIds(before');
    RunCanonical(c, before, after);
    RunCanonical(c, before', after');
  }

  lemma EarlyDepends(c: Mixed, f: Fill)
    requires c.Includes(f) && (f.leg || !c.Addressed(f))
    ensures !OrderIndependent(c)
  {
    EarlyIsMissed(c, f);
  }

  lemma AddressedIndependent(c: Arrivals)
    requires forall t :: t in c.trades ==> !c.trades[t].leg
    ensures OrderIndependent(c)
  {
    forall before, after, before', after' | Interleaves(c, before, after) && Interleaves(c, before', after')
      ensures SameEnd(c.report.At(), Run(c.start, before, c.report, after).books,
                  Run(c.start, before', c.report, after').books)
    {
      AddressedAlike(c, before, after, before', after');
    }
  }

  /** The arrival order of a report and its fills does not matter exactly when no fill is a leg fill, every fill carries
      the id of the order, and no fill carries the client id of another order. */
  lemma ArrivalOrder(c: Mixed)
    ensures OrderIndependent(c) <==> forall t :: t in c.trades ==> c.Addressed(c.trades[t]) && !c.trades[t].leg
  {
    if t :| t in c.trades && (c.trades[t].leg || !c.Addressed(c.trades[t])) {
      EarlyDepends(c, c.trades[t]);
    } else {
      AddressedIndependent(c);
    }
  }
}
