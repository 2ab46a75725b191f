/** The account reconciler: a second reducer over the same cache, which stores every fill and replays them into new
    orders. */
module AccountReconciler {
  import opened Model
  import opened OrderCache
  import opened Fills
  import opened Sorting
  import EM = ExecutionManager

  datatype Step = Step(books: EM.Books, ok: bool)

  /** The order status a report leads to, if the transition is allowed. */
  function NextOrderStatus(from: OrderStatus, to: OrderStatus): Option<OrderStatus> {
    if from == to then Some(to)
    else if to.NoStatus? then None
    else if from.NoStatus? then Some(to)
    else
      match from
      case Initialized =>
        if to.Denied? || to.Emulated? || to.Released? || to.Submitted? || to.Rejected? || to.Accepted? || to.Canceled?
           || to.Expired? || to.Triggered? then Some(to) else None
      case Emulated => if to.Canceled? || to.Expired? || to.Released? then Some(to) else None
      case Released => if to.Denied? || to.Submitted? || to.Canceled? then Some(to) else None
      case Submitted =>
        if to.PendingUpdate? || to.PendingCancel? || to.Rejected? || to.Canceled? || to.Accepted? || to.PartiallyFilled?
           || to.Filled? then Some(to) else None
      case Accepted =>
        if to.Rejected? || to.Triggered? || to.PendingUpdate? || to.PendingCancel? || to.PartiallyFilled? || to.Filled?
           || to.Canceled? || to.Expired? then Some(to) else None
      case Canceled => if to.PartiallyFilled? || to.Filled? then Some(to) else None
      case Triggered =>
        if to.Rejected? || to.PendingUpdate? || to.PendingCancel? || to.PartiallyFilled? || to.Filled? || to.Canceled?
           || to.Expired? then Some(to) else None
      case PendingUpdate =>
        if to.Submitted? then Some(PendingUpdate)
        else if to.Rejected? || to.Accepted? || to.Canceled? || to.Expired? || to.Triggered? || to.PendingCancel?
                || to.PartiallyFilled? || to.Filled? then Some(to) else None
      case PendingCancel =>
        if to.Rejected? || to.Canceled? || to.Expired? || to.Accepted? || to.PartiallyFilled?
          || to.Filled? then Some(to) else None
      case PartiallyFilled =>
        if to.PendingUpdate? || to.PendingCancel? || to.Filled? || to.Canceled? || to.Expired? then Some(to) else None
      case _ => None
  }

  function AverageFillPrice(average: real, filled: real, f: Fill): real {
    if filled + f.quantity == 0.0 then 0.0
    else if average == 0.0 || filled == 0.0 then f.price
    else (average * filled + Worth(f)) / (filled + f.quantity)
  }

  /** The order after one more fill; the filled quantity never passes the order's quantity. */
  function ApplyFillToOrder(o: Order, f: Fill): Order {
    var filled := if 0.0 < o.quantity < o.filled + f.quantity then o.quantity else o.filled + f.quantity;
    var leaves := if o.quantity <= 0.0 then o.leaves else if o.quantity < filled then 0.0 else o.quantity - filled;
    var status :=
      if 0.0 < o.quantity <= filled then Filled
      else if 0.0 < filled then PartiallyFilled
      else o.status;
    o.(filled := filled, average := AverageFillPrice(o.average, o.filled, f),
       leaves := if 0.0 < o.quantity <= filled then 0.0 else leaves, status := status,
       updated := if o.updated < f.timestamp then f.timestamp else o.updated)
  }

  function PutOrder(s: EM.Books, o: Order): Step {
    if Normalize(o).Valid() then Step(s.(orders := Stored(s.orders, Normalize(o))), true) else Step(s, false)
  }

  function ApplyFill(s: EM.Books, f: Fill): Step {
    if !f.Valid() then Step(s, false)
    else if s.fills.Has(f) then Step(s, true)
    else
      var s1 := s.(fills := s.fills.Put(f));
      if f.At() in s.orders then PutOrder(s1, ApplyFillToOrder(s.orders[f.At()], f)) else Step(s1, true)
  }

  /** Replays fills into a cached order. */
  function ReplayFills(s: EM.Books, k: Key, fills: seq<Fill>): (r: Step)
    ensures r.books.fills == s.fills
    decreases |fills|
  {
    if fills == [] || k !in s.orders then Step(s, true)
    else
      var put := PutOrder(s, ApplyFillToOrder(s.orders[k], fills[0]));
      if put.ok then ReplayFills(put.books, k, fills[1..]) else put
  }

  ghost predicate Replayable(s: EM.Books) {
    forall k :: Filed(Of(s.fills.stored, k), k)
  }

  ghost function ApplyOrder(s: EM.Books, report: Order): Step
    requires Replayable(s)
  {
    var known := report.At() in s.orders;
    var next := if known then NextOrderStatus(s.orders[report.At()].status, report.status) else Some(report.status);
    if next.None? || (known && report.filled < s.orders[report.At()].filled) then Step(s, false)
    else
      var put := PutOrder(s, report.(status := next.value));
      if put.ok && report.filled == 0.0 then
        assert Filed(Of(s.fills.stored, report.At()), report.At());
        ReplayFills(put.books, report.At(), Listing(Of(s.fills.stored, report.At())))
      else put
  }

  // ----- A fold over the stored fills -----

  /** The filled quantity is the stored fills' total, cut off at the order's quantity. */
  ghost predicate Folded(orders: Orders, stored: map<Key, ByTrade>, size: Key -> real) {
    forall k :: k in orders ==> FoldedAt(orders[k], k, Of(stored, k), size)
  }

  ghost predicate FoldedAt(o: Order, k: Key, fills: ByTrade, size: Key -> real) {
    o.At() == k && o.quantity == size(k) && 0.0 < size(k) && o.Valid() && o.filled == Min(size(k), Quantity(fills))
  }

  /** One fill moves the filled quantity to the total, cut off, and needs no normalizing. */
  lemma ApplyFillToOrderCuts(o: Order, f: Fill, total: real)
    requires o.Valid() && 0.0 < o.quantity && f.Valid() && 0.0 <= total && o.filled == Min(o.quantity, total)
    ensures var next := ApplyFillToOrder(o, f);
            && next.Valid() && Normalize(next) == next && next.At() == o.At() && next.quantity == o.quantity
            && next.filled == Min(o.quantity, total + f.quantity)
  {
  }

  lemma ApplyFillReplayable(s: EM.Books, f: Fill)
    requires Replayable(s)
    ensures Replayable(ApplyFill(s, f).books)
  {
    forall k ensures Filed(Of(ApplyFill(s, f).books.fills.stored, k), k) { assert Filed(Of(s.fills.stored, k), k); }
  }

  lemma ApplyFillHere(s: EM.Books, f: Fill, size: Key -> real)
    requires f.Valid() && !s.fills.Has(f) && f.At() in s.orders && Filed(Of(s.fills.stored, f.At()), f.At())
    requires FoldedAt(s.orders[f.At()], f.At(), Of(s.fills.stored, f.At()), size)
    ensures var next := ApplyFillToOrder(s.orders[f.At()], f);
            && ApplyFill(s, f) == Step(EM.Books(Stored(s.orders, next), s.fills.Put(f)), true)
            && FoldedAt(next, f.At(), Of(s.fills.Put(f).stored, f.At()), size)
  {
    var fills := Of(s.fills.stored, f.At());
    QuantityMonotone(map[], fills);
    QuantityAdd(fills, f);
    ApplyFillToOrderCuts(s.orders[f.At()], f, Quantity(fills));
  }

  lemma ApplyFillFolds(s: EM.Books, f: Fill, size: Key -> real)
    requires Replayable(s) && Folded(s.orders, s.fills.stored, size)
    ensures Folded(ApplyFill(s, f).books.orders, ApplyFill(s, f).books.fills.stored, size)
  {
    if f.Valid() && !s.fills.Has(f) {
      var next := ApplyFill(s, f).books;
      assert Filed(Of(s.fills.stored, f.At()), f.At());
      if f.At() in s.orders {
        ApplyFillHere(s, f, size);
      }
      forall k | k in next.orders ensures FoldedAt(next.orders[k], k, Of(next.fills.stored, k), size) {
        assert k in s.orders && (k != f.At() ==> FoldedAt(s.orders[k], k, Of(s.fills.stored, k), size));
      }
    }
  }

  /** An order whose filled quantity is a total, cut off at its quantity. */
  ghost predicate Cut(o: Order, k: Key, quantity: real, total: real) {
    CutOff(o, k, quantity, total).Agrees?
  }

  ghost function CutOff(o: Order, k: Key, quantity: real, total: real): EM.Comparison {
    if o.At() == k && o.quantity == quantity && 0.0 < quantity && o.Valid() && 0.0 <= total
      && o.filled == Min(quantity, total)
    then EM.Agrees else EM.Differs
  }

  ghost function Added(fills: seq<Fill>): real {
    if fills == [] then 0.0 else fills[0].quantity + Added(fills[1..])
  }

  ghost predicate AllValid(fills: seq<Fill>) {
    forall i :: 0 <= i < |fills| ==> fills[i].Valid()
  }

  /** A listing of distinct trades adds up to their quantity. */
  lemma {:induction false} ListingAdds(fills: seq<Fill>, m: ByTrade, k: Key)
    requires Chronological(fills, m) && Filed(m, k)
    ensures Added(fills) == Quantity(m) && AllValid(fills)
    decreases |fills|
  {
    if fills == [] {
      assert m == map[];
    } else {
      ChronologicalTail(fills, m);
      FirstOut(m, fills[0]);
      ListingAdds(fills[1..], m - {fills[0].trade}, k);
      assert forall i :: 0 < i < |fills| ==> fills[i] == fills[1..][i - 1];
    }
  }

  /** From `s` to `t` only the order `k` changed, and its filled quantity is now `total`, cut off. */
  ghost predicate Replaces(s: EM.Books, t: EM.Books, k: Key, quantity: real, total: real) {
    && t.fills == s.fills && k in t.orders && Cut(t.orders[k], k, quantity, total)
    && forall j :: j in t.orders && j != k ==> j in s.orders && t.orders[j] == s.orders[j]
  }

  ghost function Compare(s: EM.Books, t: Step, k: Key, quantity: real, total: real): EM.Comparison {
    if t.ok && Replaces(s, t.books, k, quantity, total) then EM.Agrees else EM.Differs
  }

  lemma ReplayOne(s: EM.Books, k: Key, f: Fill, quantity: real, total: real)
    requires k in s.orders && Cut(s.orders[k], k, quantity, total) && f.Valid()
    ensures Compare(s, PutOrder(s, ApplyFillToOrder(s.orders[k], f)), k, quantity, total + f.quantity).Agrees?
  {
    ApplyFillToOrderCuts(s.orders[k], f, total);
  }

  lemma ReplaceTwice(s: EM.Books, t: Step, u: Step, k: Key, quantity: real, first: real, second: real)
    requires Compare(s, t, k, quantity, first).Agrees? && Compare(t.books, u, k, quantity, second).Agrees?
    ensures Compare(s, u, k, quantity, second).Agrees?
  {
  }

  lemma FirstOut(m: ByTrade, f: Fill)
    requires f.trade in m && m[f.trade] == f
    ensures Quantity(m) == f.quantity + Quantity(m - {f.trade})
  {
    QuantityAdd(m - {f.trade}, f);
    assert (m - {f.trade})[f.trade := f] == m;
  }

  /** Replaying fills into an order folds them all into it and leaves the other orders alone. */
  lemma {:induction false} ReplayFolds(s: EM.Books, k: Key, fills: seq<Fill>, quantity: real, total: real, final: real)
    requires k in s.orders && Cut(s.orders[k], k, quantity, total) && AllValid(fills) && final == total + Added(fills)
    ensures Compare(s, ReplayFills(s, k, fills), k, quantity, final).Agrees?
    decreases |fills|
  {
    if fills != [] {
      var f, rest := fills[0], fills[1..];
      ReplayOne(s, k, f, quantity, total);
      var put := PutOrder(s, ApplyFillToOrder(s.orders[k], f));
      ReplayFolds(put.books, k, rest, quantity, total + f.quantity, final);
      ReplaceTwice(s, put, ReplayFills(put.books, k, rest), k, quantity, total + f.quantity, final);
    }
  }

  /** A report that adds no filled quantity of its own: none and not Filled, or what the cache already holds. */
  predicate Plain(s: EM.Books, r: Order, size: Key -> real) {
    && r.quantity == size(r.At()) && 0.0 < r.quantity
    && (if r.filled == 0.0 then !r.status.Filled? else r.At() in s.orders && r.filled == s.orders[r.At()].filled)
  }

  lemma NextStatusFilled(from: OrderStatus, to: OrderStatus)
    ensures NextOrderStatus(from, to) == Some(Filled) ==> to.Filled?
  {
  }

  /** Storing a plain report keeps the total the order had. */
  lemma PlainPut(r: Order, status: OrderStatus, total: real)
    requires 0.0 < r.quantity && 0.0 <= total && r.filled == Min(r.quantity, total)
                 && (r.filled == 0.0 ==> !status.Filled?)
    requires Normalize(r.(status := status)).Valid()
    ensures Cut(Normalize(r.(status := status)), r.At(), r.quantity, total)
  {
  }

  /** A plain report leaves its order folded and every other order as it was. */
  lemma ApplyOrderHere(s: EM.Books, r: Order, size: Key -> real, total: real)
    requires Replayable(s) && Folded(s.orders, s.fills.stored, size) && Plain(s, r, size) && ApplyOrder(s, r).ok
    requires total == Quantity(Of(s.fills.stored, r.At()))
    ensures Compare(s, ApplyOrder(s, r), r.At(), size(r.At()), total).Agrees?
  {
    var k, fills := r.At(), Of(s.fills.stored, r.At());
    assert Filed(fills, k);
    QuantityMonotone(map[], fills);
    var next := if k in s.orders then NextOrderStatus(s.orders[k].status, r.status) else Some(r.status);
    if k in s.orders {
      NextStatusFilled(s.orders[k].status, r.status);
      assert FoldedAt(s.orders[k], k, fills, size);
    }
    if r.filled == 0.0 { PlainOpens(s, r, next.value, fills, total); } else { PlainPut(r, next.value, total); }
  }

  lemma PlainOpens(s: EM.Books, r: Order, status: OrderStatus, fills: ByTrade, total: real)
    requires r.filled == 0.0 && 0.0 < r.quantity && !status.Filled? && PutOrder(s, r.(status := status)).ok
    requires Filed(fills, r.At()) && total == Quantity(fills)
    ensures Compare(s, ReplayFills(PutOrder(s, r.(status := status)).books, r.At(), Listing(fills)), r.At(), r.quantity,
                    total).Agrees?
  {
    var put := PutOrder(s, r.(status := status));
    PlainPut(r, status, 0.0);
    assert Compare(s, put, r.At(), r.quantity, 0.0).Agrees?;
    ReplayListing(s, put, r.At(), fills, r.quantity, total);
  }

  lemma ReplayListing(s: EM.Books, put: Step, k: Key, fills: ByTrade, quantity: real, total: real)
    requires Compare(s, put, k, quantity, 0.0).Agrees? && Filed(fills, k) && total == Quantity(fills)
    ensures Compare(s, ReplayFills(put.books, k, Listing(fills)), k, quantity, total).Agrees?
  {
    ListingAdds(Listing(fills), fills, k);
    ReplayFolds(put.books, k, Listing(fills), quantity, 0.0, total);
    ReplaceTwice(s, put, ReplayFills(put.books, k, Listing(fills)), k, quantity, 0.0, total);
  }

  lemma ApplyOrderRejects(s: EM.Books, r: Order, size: Key -> real)
    requires Replayable(s) && Folded(s.orders, s.fills.stored, size) && Plain(s, r, size) && !ApplyOrder(s, r).ok
    ensures ApplyOrder(s, r).books == s
  {
    var k, fills := r.At(), Of(s.fills.stored, r.At());
    assert Filed(fills, k);
    var next := if k in s.orders then NextOrderStatus(s.orders[k].status, r.status) else Some(r.status);
    if next.Some? && r.filled == 0.0 && PutOrder(s, r.(status := next.value)).ok {
      if k in s.orders { NextStatusFilled(s.orders[k].status, r.status); }
      PlainPut(r, next.value, 0.0);
      ListingAdds(Listing(fills), fills, k);
      ReplayFolds(PutOrder(s, r.(status := next.value)).books, k, Listing(fills), r.quantity, 0.0,
        Added(Listing(fills)));
    }
  }

  lemma ApplyOrderFolds(s: EM.Books, r: Order, size: Key -> real)
    requires Replayable(s) && Folded(s.orders, s.fills.stored, size) && Plain(s, r, size)
    ensures ApplyOrder(s, r).books.fills == s.fills && Folded(ApplyOrder(s, r).books.orders, s.fills.stored, size)
  {
    if ApplyOrder(s, r).ok {
      var next, k0 := ApplyOrder(s, r).books, r.At();
      ApplyOrderHere(s, r, size, Quantity(Of(s.fills.stored, k0)));
      forall k | k in next.orders ensures FoldedAt(next.orders[k], k, Of(s.fills.stored, k), size) {
        if k != k0 { assert FoldedAt(s.orders[k], k, Of(s.fills.stored, k), size); }
      }
    } else {
      ApplyOrderRejects(s, r, size);
    }
  }

  datatype Event = Report(order: Order) | FillEvent(fill: Fill)

  /** What the reconciler does with an event; a rejected event changes what the code changed before the error. */
  ghost function Apply(s: EM.Books, e: Event): (t: EM.Books)
    requires Replayable(s)
    ensures Replayable(t)
  {
    match e
    case Report(o) => ApplyOrder(s, o).books
    case FillEvent(f) =>
      ApplyFillReplayable(s, f);
      ApplyFill(s, f).books
  }

  ghost predicate Growing(a: FillBook, b: FillBook) {
    forall k, t :: t in Of(a.stored, k) ==> t in Of(b.stored, k) && Of(a.stored, k)[t] == Of(b.stored, k)[t]
  }

  lemma ApplyFolds(s: EM.Books, e: Event, size: Key -> real)
    requires Replayable(s) && Folded(s.orders, s.fills.stored, size) && (e.Report? ==> Plain(s, e.order, size))
    ensures Folded(Apply(s, e).orders, Apply(s, e).fills.stored, size)
    ensures Growing(s.fills, Apply(s, e).fills)
  {
    match e
    case Report(o) => ApplyOrderFolds(s, o, size);
    case FillEvent(f) =>
      ApplyFillFolds(s, f, size);
      ApplyFillGrows(s, f);
  }

  lemma ApplyFillGrows(s: EM.Books, f: Fill)
    ensures Growing(s.fills, ApplyFill(s, f).books.fills)
  {
    if !s.fills.Has(f) { PutGrows(s.fills, f); }
    assert ApplyFill(s, f).books.fills in {s.fills, s.fills.Put(f)};
  }

  lemma PutGrows(b: FillBook, f: Fill)
    requires !b.Has(f)
    ensures Growing(b, b.Put(f))
  {
  }

  /** Every report of the run is plain when it arrives. */
  ghost predicate AllPlain(s: EM.Books, events: seq<Event>, size: Key -> real)
    requires Replayable(s)
    decreases |events|
  {
    events == [] ||
    ((events[0].Report? ==> Plain(s, events[0].order, size)) && AllPlain(Apply(s, events[0]), events[1..], size))
  }

  ghost function Run(s: EM.Books, events: seq<Event>): (t: EM.Books)
    requires Replayable(s)
    ensures Replayable(t)
    decreases |events|
  {
    if events == [] then s else Run(Apply(s, events[0]), events[1..])
  }

  lemma FilledMonotone(a: ByTrade, b: ByTrade, k: Key, o: Order, p: Order, size: Key -> real)
    requires Filed(b, k) && (forall t :: t in a ==> t in b && a[t] == b[t])
    requires FoldedAt(o, k, a, size) && FoldedAt(p, k, b, size)
    ensures o.filled <= p.filled
  {
    QuantityMonotone(a, b);
  }

  /** Under any interleaving of plain reports and fills, a cached order has filled the stored total, cut off at its
      quantity. */
  lemma {:induction false} RunFolds(s: EM.Books, events: seq<Event>, size: Key -> real)
    requires Replayable(s) && AllPlain(s, events, size) && Folded(s.orders, s.fills.stored, size)
    ensures var t := Run(s, events);
            Folded(t.orders, t.fills.stored, size) && Growing(s.fills, t.fills)
    decreases |events|
  {
    if events != [] {
      ApplyFolds(s, events[0], size);
      RunFolds(Apply(s, events[0]), events[1..], size);
    }
  }

  /** And the filled quantity never goes down between two moments at which the order is cached. */
  lemma RunNeverUnfills(s: EM.Books, events: seq<Event>, size: Key -> real, k: Key)
    requires Replayable(s) && AllPlain(s, events, size) && Folded(s.orders, s.fills.stored, size)
    requires k in s.orders && k in Run(s, events).orders
    ensures s.orders[k].filled <= Run(s, events).orders[k].filled
  {
    RunFolds(s, events, size);
    var t := Run(s, events);
    assert Filed(Of(t.fills.stored, k), k);
    assert FoldedAt(s.orders[k], k, Of(s.fills.stored, k), size)
      && FoldedAt(t.orders[k], k, Of(t.fills.stored, k), size);
    FilledMonotone(Of(s.fills.stored, k), Of(t.fills.stored, k), k, s.orders[k], t.orders[k], size);
  }

  // ----- Agreement with the execution manager -----

  /** Short of overfilling, both reducers fill an order the same way. */
  lemma FillsAlike(o: Order, f: Fill)
    requires o.Valid() && 0.0 < o.quantity && f.Valid() && !EM.Overfills(o, f)
    ensures EM.SameButTime(ApplyFillToOrder(o, f), EM.FillOrder(o, f))
  {
  }

  lemma SameButTimeStores(o: Order, p: Order, q: Order)
    requires EM.SameButTime(o, p) && EM.SameButTime(p, q)
    ensures EM.SameButTime(o, q) && (Normalize(p) == p ==> Normalize(o) == o) && (p.Valid() ==> o.Valid())
  {
  }

  /** The cached order is the one that the report and the given trades describe. */
  ghost predicate Described(c: EM.Arrivals, ids: set<Id>, s: EM.Books) {
    c.report.At() in s.orders && EM.SameButTime(s.orders[c.report.At()], EM.Canonical(c.report, EM.Pick(c.trades, ids)))
  }

  lemma {:induction false} CanonicalValid(c: EM.Arrivals, ids: set<Id>)
    ensures EM.Canonical(c.report, EM.Pick(c.trades, ids)).Valid()
    ensures EM.Canonical(c.report, EM.Pick(c.trades, ids)).quantity == c.report.quantity
  {
    QuantityMonotone(EM.Pick(c.trades, ids), c.trades);
  }

  lemma PutDescribed(c: EM.Arrivals, ids: set<Id>, s: EM.Books, f: Fill)
    requires Described(c, ids, s) && c.Includes(f) && f.trade !in ids
    ensures var put := PutOrder(s, ApplyFillToOrder(s.orders[f.At()], f));
            put.ok && put.books.fills == s.fills && Described(c, ids + {f.trade}, put.books)
  {
    var o := s.orders[f.At()];
    EM.CanonicalStep(c.report, c.trades, ids, o, f);
    CanonicalValid(c, ids);
    FillsAlike(o, f);
    SameButTimeStores(ApplyFillToOrder(o, f), EM.FillOrder(o, f),
      EM.Canonical(c.report, EM.Pick(c.trades, ids + {f.trade})));
  }

  /** Trades of `g` to replay, none of them replayed yet. */
  ghost predicate Pending(fills: seq<Fill>, g: ByTrade, ids: set<Id>) {
    && EM.From(fills, g) && EM.Ids(fills) !! ids
    && forall i, j :: 0 <= i < j < |fills| ==> fills[i].trade != fills[j].trade
  }

  lemma PendingTail(fills: seq<Fill>, g: ByTrade, ids: set<Id>)
    requires Pending(fills, g, ids) && fills != []
    ensures var f := fills[0];
            && f.trade in g && g[f.trade] == f && f.trade !in ids && Pending(fills[1..], g, ids + {f.trade})
            && ids + {f.trade} + EM.Ids(fills[1..]) == ids + EM.Ids(fills)
  {
    var f := fills[0];
    EM.IdsCons(fills);
    assert f in fills;
    forall g | g in fills[1..] ensures g.trade != f.trade && g.trade !in ids {
      assert g in fills;
      var i :| 0 < i < |fills| && fills[i] == g;
    }
  }

  lemma {:induction false} ReplayDescribed(c: EM.Arrivals, ids: set<Id>, s: EM.Books, fills: seq<Fill>)
    requires Described(c, ids, s) && Pending(fills, c.trades, ids)
    ensures ReplayFills(s, c.report.At(), fills).ok
    ensures Described(c, ids + EM.Ids(fills), ReplayFills(s, c.report.At(), fills).books)
    decreases |fills|
  {
    if fills == [] {
      assert ids + EM.Ids(fills) == ids;
    } else {
      var f, rest := fills[0], fills[1..];
      PendingTail(fills, c.trades, ids);
      PutDescribed(c, ids, s, f);
      ReplayDescribed(c, ids + {f.trade}, PutOrder(s, ApplyFillToOrder(s.orders[f.At()], f)).books, rest);
    }
  }

  /** What the order of `c` sees of the reconciler: the stored trades, all of them applied once the order is known. */
  ghost predicate Sees(c: EM.Arrivals, known: bool, ids: set<Id>, s: EM.Books) {
    Compared(c, known, ids, s).Agrees?
  }

  ghost function Compared(c: EM.Arrivals, known: bool, ids: set<Id>, s: EM.Books): EM.Comparison {
    if Of(s.fills.stored, c.report.At()) == EM.Pick(c.trades, ids)
       && (if known then Described(c, ids, s) else c.report.At() !in s.orders)
    then EM.Agrees else EM.Differs
  }

  lemma FillSeen(c: EM.Arrivals, known: bool, ids: set<Id>, s: EM.Books, f: Fill)
    requires Sees(c, known, ids, s) && c.Includes(f)
    ensures Sees(c, known, ids + {f.trade}, ApplyFill(s, f).books)
  {
    EM.PickAdd(c.trades, ids, f);
    if f.trade in ids {
      assert ids + {f.trade} == ids;
    } else if known {
      PutDescribed(c, ids, s.(fills := s.fills.Put(f)), f);
    }
  }

  ghost function ApplyFills(s: EM.Books, fills: seq<Fill>): (t: EM.Books)
    ensures Replayable(s) ==> Replayable(t)
    decreases |fills|
  {
    if fills == [] then s
    else
      if Replayable(s) then ApplyFillReplayable(s, fills[0]); ApplyFills(ApplyFill(s, fills[0]).books, fills[1..])
      else ApplyFills(ApplyFill(s, fills[0]).books, fills[1..])
  }

  lemma {:induction false} FillsSeen(c: EM.Arrivals, known: bool, ids: set<Id>, s: EM.Books, fills: seq<Fill>)
    requires Sees(c, known, ids, s) && EM.From(fills, c.trades)
    ensures Sees(c, known, ids + EM.Ids(fills), ApplyFills(s, fills))
    decreases |fills|
  {
    if fills == [] {
      assert ids + EM.Ids(fills) == ids;
    } else {
      FillSeen(c, known, ids, s, fills[0]);
      EM.IdsCons(fills);
      FillsSeen(c, known, ids + {fills[0].trade}, ApplyFill(s, fills[0]).books, fills[1..]);
      assert ids + {fills[0].trade} + EM.Ids(fills[1..]) == ids + EM.Ids(fills);
    }
  }

  lemma OpeningDescribed(c: EM.Arrivals, s: EM.Books)
    ensures PutOrder(s, c.report).ok && Described(c, {}, PutOrder(s, c.report).books)
  {
    assert EM.Pick(c.trades, {}) == map[];
  }

  lemma ListingPending(m: ByTrade, g: ByTrade)
    requires (forall t :: t in m ==> t in g && m[t] == g[t]) && (forall t :: t in m ==> m[t].trade == t)
    ensures Pending(Listing(m), g, {}) && EM.Ids(Listing(m)) == m.Keys
  {
    var s := Listing(m);
    EM.ListingIds(m, s);
    forall i, j | 0 <= i < j < |s| ensures s[i].trade != s[j].trade {
      assert s[i] in s && s[j] in s && Less(TradeRank(s[i]), TradeRank(s[j]));
    }
  }

  lemma ReportSeen(c: EM.Arrivals, ids: set<Id>, s: EM.Books)
    requires Replayable(s) && Sees(c, false, ids, s) && ids <= c.trades.Keys
    ensures Sees(c, true, ids, ApplyOrder(s, c.report).books)
  {
    var fills := EM.Pick(c.trades, ids);
    assert fills.Keys == ids;
    OpeningDescribed(c, s);
    ListingPending(fills, c.trades);
    ReplayDescribed(c, {}, PutOrder(s, c.report).books, Listing(fills));
    assert {} + ids == ids;
  }

  ghost function Interleaved(s: EM.Books, before: seq<Fill>, r: Order, after: seq<Fill>): EM.Books
    requires Replayable(s)
  {
    ApplyFills(ApplyOrder(ApplyFills(s, before), r).books, after)
  }

  lemma InterleavedSeen(c: EM.Arrivals, before: seq<Fill>, after: seq<Fill>)
    requires Replayable(c.start) && EM.From(before, c.trades) && EM.From(after, c.trades)
    requires Of(c.start.fills.stored, c.report.At()) == map[]
    ensures Sees(c, true, EM.Ids(before) + EM.Ids(after), Interleaved(c.start, before, c.report, after))
  {
    assert EM.Pick(c.trades, {}) == map[] && {} + EM.Ids(before) == EM.Ids(before);
    FillsSeen(c, false, {}, c.start, before);
    ReportSeen(c, EM.Ids(before), ApplyFills(c.start, before));
    FillsSeen(c, true, EM.Ids(before), ApplyOrder(ApplyFills(c.start, before), c.report).books, after);
  }

  /** On runs that do not overfill, the order ends as the execution manager leaves it, whatever the arrival order. */
  lemma AgreesWithManager(c: EM.Arrivals, before: seq<Fill>, after: seq<Fill>)
    requires Replayable(c.start) && EM.Interleaves(c, before, after) && EM.LegIds(before) == {}
    requires Of(c.start.fills.stored, c.report.At()) == map[]
    ensures var k := c.report.At(); var mine, theirs := Interleaved(c.start, before, c.report, after),
                EM.Run(c.start, before, c.report, after).books;
            k in mine.orders && k in theirs.orders && EM.SameButTime(mine.orders[k], theirs.orders[k])
  {
    InterleavedSeen(c, before, after);
    EM.RunCanonical(c, before, after);
    assert c.trades.Keys - {} == EM.Ids(before) + EM.Ids(after);
  }

  // ----- Reports that repeat what is cached -----

  /** The two rules let the same reports through, and to the same status. */
  predicate StatusRulesAgree(from: OrderStatus, to: OrderStatus) {
    from == to ||
    var next := NextOrderStatus(from, to);
    (next.Some? <==> !from.IsTerminal()) && (next.Some? ==> next.value == to)
  }

  /** A report that repeats the cached filled quantity, which is zero only where no fill is stored. */
  predicate Repeats(s: EM.Books, r: Order) {
    && r.Valid() && r.At() in s.orders && r.filled == s.orders[r.At()].filled
    && (r.filled == 0.0 ==> Of(s.fills.stored, r.At()) == map[])
  }

  lemma ReconcilerRepeats(s: EM.Books, r: Order)
    requires Replayable(s) && Repeats(s, r)
    ensures ApplyOrder(s, r).books ==
              match NextOrderStatus(s.orders[r.At()].status, r.status)
              case None => s
              case Some(next) => s.(orders := Stored(s.orders, Normalize(r.(status := next))))
  {
    var next := NextOrderStatus(s.orders[r.At()].status, r.status);
    if next.Some? {
      KeptValid(r, next.value);
      if r.filled == 0.0 { assert Listing(Of(s.fills.stored, r.At())) == []; }
    }
  }

  /** On a report that repeats the cached filled quantity the two reducers end alike exactly when their status rules
      agree. */
  lemma RepeatedReportsAgreeIff(s: EM.Books, r: Order)
    requires EM.Replayable(s) && Replayable(s) && Repeats(s, r) && Of(s.fills.deferred, r.At()) == map[]
    ensures ApplyOrder(s, r).books.orders == EM.ApplyOrderReport(s, r).books.orders <==>
              StatusRulesAgree(s.orders[r.At()].status, r.status)
  {
    KeptValid(r, r.status);
    EM.ReportAlone(s, r);
    ReconcilerRepeats(s, r);
    var from, k := s.orders[r.At()].status, r.At();
    var next := NextOrderStatus(from, r.status);
    assert Stored(s.orders, Normalize(r))[k].status == r.status;
    if next.Some? { KeptValid(r, next.value); }
  }

  lemma KeptValid(r: Order, status: OrderStatus)
    requires r.Valid() && !status.NoStatus?
    ensures Normalize(r.(status := status)).Valid() && Normalize(r.(status := status)).status == status
  {
  }
}

module Reconcilers {
  import opened Model
  import opened OrderCache
  import opened Fills
  import EM = ExecutionManager
  import AR = AccountReconciler

  /** The reconciler as an object over the order and fill caches. */
  class Reconciler {
    const orders: Cache
    const fills: FillCache

    ghost function Books(): EM.Books
      reads orders, fills
    {
      EM.Books(orders.orders, fills.book)
    }

    ghost predicate Valid()
      reads orders, fills
    {
      orders.Valid() && AR.Replayable(Books())
    }

    constructor (o: Cache, f: FillCache)
      requires o.Valid() && forall k :: Filed(Of(f.book.stored, k), k)
      ensures Valid() && orders == o && fills == f
    {
      orders, fills := o, f;
    }

    method ApplyFill(f: Fill) returns (ok: bool)
      requires Valid()
      modifies orders, fills
      ensures Valid()
      ensures AR.Step(Books(), ok) == AR.ApplyFill(old(Books()), f)
    {
      AR.ApplyFillReplayable(Books(), f);
      var stored;
      stored, ok := fills.PutFill(f);
      if !ok || !stored { return; }
      if f.At() in orders.orders {
        ok := orders.PutOrder(AR.ApplyFillToOrder(orders.orders[f.At()], f));
      }
    }

    method ReplayFills(k: Key) returns (ok: bool)
      requires Valid()
      modifies orders
      ensures Valid() && fills.book == old(fills.book)
      ensures forall s :: Chronological(s, Of(fills.book.stored, k)) ==>
                  AR.Step(Books(), ok) == AR.ReplayFills(old(Books()), k, s)
    {
      ok := true;
      ghost var before := Books();
      assert Filed(Of(fills.book.stored, k), k);
      var s := SortFills(Of(fills.book.stored, k));
      forall t | Chronological(t, Of(fills.book.stored, k))
        ensures t == s { ChronologicalUnique(s, t, Of(fills.book.stored, k)); }
      for i := 0 to |s|
        invariant Valid() && ok && fills.book == old(fills.book)
        invariant AR.ReplayFills(before, k, s) == AR.ReplayFills(Books(), k, s[i..])
      {
        if k !in orders.orders { return; }
        assert s[i..][1..] == s[i + 1..];
        ok := orders.PutOrder(AR.ApplyFillToOrder(orders.orders[k], s[i]));
        if !ok { return; }
      }
    }

    method ApplyOrder(report: Order) returns (ok: bool)
      requires Valid()
      modifies orders
      ensures Valid() && fills.book == old(fills.book)
      ensures AR.Step(Books(), ok) == AR.ApplyOrder(old(Books()), report)
    {
      var status := Some(report.status);
      if report.At() in orders.orders {
        var existing := orders.orders[report.At()];
        status := AR.NextOrderStatus(existing.status, report.status);
        if status.None? || report.filled < existing.filled { return false; }
      }
      ok := orders.PutOrder(report.(status := status.value));
      if ok && report.filled == 0.0 {
        assert Filed(Of(fills.book.stored, report.At()), report.At());
        ghost var listing := Listing(Of(fills.book.stored, report.At()));
        ok := ReplayFills(report.At());
      }
    }
  }
}
