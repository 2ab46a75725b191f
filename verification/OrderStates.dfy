/** Which status an order may take on, as the account reconciler sees it: by target, and over whole runs. */
module OrderStates {
  import opened Model
  import opened OrderCache
  import opened Fills
  import EM = ExecutionManager
  import AR = AccountReconciler

  /** The order is, or may be, at the venue. */
  predicate AtVenue(s: OrderStatus) {
    s in {Submitted, Accepted, Triggered, PendingUpdate, PendingCancel, PartiallyFilled}
  }

  /** Nothing but a fill changes such a status. */
  predicate Final(s: OrderStatus) {
    s in {Denied, Filled, Rejected, Expired}
  }

  /** Where a status can be reached from. Any open order can be cancelled, and any order at the venue can fill, even one
      just cancelled. */
  predicate ReachedFrom(to: OrderStatus, from: OrderStatus) {
    match to
    case NoStatus => false
    case Initialized => false
    case Denied => from in {Initialized, Released}
    case Emulated => from in {Initialized}
    case Released => from in {Initialized, Emulated}
    case Submitted => from in {Initialized, Released, PendingUpdate}
    case Accepted => from in {Initialized, Submitted, PendingUpdate, PendingCancel}
    case Triggered => from in {Initialized, Accepted, PendingUpdate}
    case PendingUpdate => AtVenue(from) && !from.PendingCancel?
    case PendingCancel => AtVenue(from)
    case PartiallyFilled => AtVenue(from) || from.Canceled?
    case Filled => AtVenue(from) || from.Canceled?
    case Canceled => from.IsOpen()
    case Rejected => from.Initialized? || (AtVenue(from) && !from.PartiallyFilled?)
    case Expired => from in {Initialized, Emulated} || (AtVenue(from) && !from.Submitted?)
  }

  predicate MayBecome(from: OrderStatus, to: OrderStatus) {
    from == to || (from.NoStatus? && !to.NoStatus?) || ReachedFrom(to, from)
  }

  /** A submission reported late does not end a pending update; every other report is taken at its word. */
  function Becomes(from: OrderStatus, to: OrderStatus): OrderStatus {
    if from.PendingUpdate? && to.Submitted? then PendingUpdate else to
  }

  lemma TransitionsAre(from: OrderStatus, to: OrderStatus)
    ensures AR.NextOrderStatus(from, to) == if MayBecome(from, to) then Some(Becomes(from, to)) else None
  {
  }

  /** An order that is final accepts no other status, a cancelled one only the late fill, and from open to cancelled
      there is always a way. */
  lemma TransitionLaws(from: OrderStatus, to: OrderStatus)
    ensures Final(from) ==> (AR.NextOrderStatus(from, to).Some? <==> to == from)
    ensures from.Canceled? ==> (AR.NextOrderStatus(from, to).Some? <==> to in {Canceled, PartiallyFilled, Filled})
    ensures from.IsOpen() ==> AR.NextOrderStatus(from, Canceled) == Some(Canceled)
    ensures from.IsOpen() ==> (AR.NextOrderStatus(from, Filled) == Some(Filled) <==> AtVenue(from))
    ensures AR.NextOrderStatus(from, to).Some? && AR.NextOrderStatus(from, to).value != to ==>
              from.PendingUpdate? && to.Submitted?
  {
    TransitionsAre(from, to);
  }

  // ----- One report -----

  lemma FilledStaysValid(o: Order, f: Fill)
    requires o.Valid() && f.Valid()
    ensures Normalize(AR.ApplyFillToOrder(o, f)).Valid() && AR.ApplyFillToOrder(o, f).At() == o.At()
  {
  }

  /** Replaying fills into a valid order never fails and leaves the order cached. */
  lemma {:induction false} ReplayOk(s: EM.Books, k: Key, fills: seq<Fill>)
    requires k in s.orders && s.orders[k].Valid() && s.orders[k].At() == k && forall f :: f in fills ==> f.Valid()
    ensures var t := AR.ReplayFills(s, k, fills);
            t.ok && k in t.books.orders && t.books.orders[k].Valid() && t.books.orders[k].At() == k
    decreases |fills|
  {
    if fills != [] {
      assert fills[0] in fills;
      FilledStaysValid(s.orders[k], fills[0]);
      ReplayOk(AR.PutOrder(s, AR.ApplyFillToOrder(s.orders[k], fills[0])).books, k, fills[1..]);
    }
  }

  /** A report on a cached order is taken exactly when the status may follow and the filled quantity does not go back;
      else it changes nothing. */
  lemma ReportTakenIff(s: EM.Books, r: Order)
    requires AR.Replayable(s) && r.Valid() && r.At() in s.orders
    ensures var t, o := AR.ApplyOrder(s, r), s.orders[r.At()];
            && (t.ok <==> MayBecome(o.status, r.status) && o.filled <= r.filled)
            && (!t.ok ==> t.books == s)
            && (t.ok ==> r.At() in t.books.orders && t.books.fills == s.fills)
  {
    var o, k := s.orders[r.At()], r.At();
    TransitionsAre(o.status, r.status);
    AR.KeptValid(r, Becomes(o.status, r.status));
    assert Filed(Of(s.fills.stored, k), k);
    if MayBecome(o.status, r.status) && o.filled <= r.filled {
      ReplayOk(AR.PutOrder(s, r.(status := Becomes(o.status, r.status))).books, k, Listing(Of(s.fills.stored, k)));
    }
  }

  /** The report then takes the order's place, unless it reports nothing filled and there are fills to replay. */
  lemma ReportReplaces(s: EM.Books, r: Order)
    requires AR.Replayable(s) && r.Valid() && r.At() in s.orders
    requires r.filled == 0.0 ==> Of(s.fills.stored, r.At()) == map[]
    ensures var t, o := AR.ApplyOrder(s, r), s.orders[r.At()];
            t.ok ==> t.books == s.(orders := Stored(s.orders, Normalize(r.(status := Becomes(o.status, r.status)))))
  {
    var o := s.orders[r.At()];
    TransitionsAre(o.status, r.status);
    AR.KeptValid(r, Becomes(o.status, r.status));
    if r.filled == 0.0 { assert Listing(Of(s.fills.stored, r.At())) == []; }
  }

  /** A first report is always taken, with every fill already stored for it. */
  lemma FirstReportTaken(s: EM.Books, r: Order)
    requires AR.Replayable(s) && r.Valid() && r.At() !in s.orders
    requires r.filled == 0.0 ==> Of(s.fills.stored, r.At()) == map[]
    ensures AR.ApplyOrder(s, r) == AR.Step(s.(orders := Stored(s.orders, Normalize(r))), true)
  {
    AR.KeptValid(r, r.status);
    if r.filled == 0.0 { assert Listing(Of(s.fills.stored, r.At())) == []; }
  }

  /** From every open status a report of the cancel is accepted as such. */
  lemma OpenOrderCancels(s: EM.Books, r: Order)
    requires AR.Replayable(s) && r.Valid() && r.At() in s.orders && s.orders[r.At()].status.IsOpen()
    requires r.status.Canceled? && s.orders[r.At()].filled <= r.filled
    requires r.filled == 0.0 ==> Of(s.fills.stored, r.At()) == map[]
    ensures AR.ApplyOrder(s, r).ok && AR.ApplyOrder(s, r).books.orders[r.At()].status == Canceled
  {
    ReportTakenIff(s, r);
    ReportReplaces(s, r);
  }

  /** A fill of a cached order leaves it Filled or PartiallyFilled, whatever it was. */
  lemma FillMakesFilled(s: EM.Books, f: Fill)
    requires WellKeyed(s.orders) && f.Valid() && !s.fills.Has(f) && f.At() in s.orders
    ensures var o, t := s.orders[f.At()], AR.ApplyFill(s, f);
            && t.ok && f.At() in t.books.orders && t.books.fills == s.fills.Put(f)
            && var p := t.books.orders[f.At()];
               && p.status == (if 0.0 < o.quantity <= o.filled + f.quantity then Filled else PartiallyFilled)
               && p.updated == (if o.updated < f.timestamp then f.timestamp else o.updated)
               && p.filled == (if 0.0 < o.quantity <= o.filled + f.quantity then o.quantity else o.filled + f.quantity)
  {
  }

  // ----- Whole runs -----

  /** A fill of another order, or a report of one, leaves a cached order as it is or displaces it. */
  lemma OtherFill(s: EM.Books, f: Fill, k: Key)
    requires WellKeyed(s.orders) && k in s.orders && f.At() != k
    ensures var t := AR.ApplyFill(s, f).books;
            (k in t.orders ==> t.orders[k] == s.orders[k]) && Of(t.fills.stored, k) == Of(s.fills.stored, k)
  {
  }

  lemma {:induction false} OtherReplay(s: EM.Books, j: Key, fills: seq<Fill>, k: Key)
    requires WellKeyed(s.orders) && j != k
    ensures var t := AR.ReplayFills(s, j, fills).books;
            k in t.orders ==> k in s.orders && t.orders[k] == s.orders[k]
    decreases |fills|
  {
    if fills != [] && j in s.orders {
      var put := AR.PutOrder(s, AR.ApplyFillToOrder(s.orders[j], fills[0]));
      if put.ok { OtherReplay(put.books, j, fills[1..], k); }
    }
  }

  lemma OtherReport(s: EM.Books, r: Order, k: Key)
    requires AR.Replayable(s) && WellKeyed(s.orders) && k in s.orders && r.At() != k
    ensures var t := AR.ApplyOrder(s, r).books;
            (k in t.orders ==> t.orders[k] == s.orders[k]) && t.fills == s.fills
  {
    assert Filed(Of(s.fills.stored, r.At()), r.At());
    var known := r.At() in s.orders;
    var next := if known then AR.NextOrderStatus(s.orders[r.At()].status, r.status) else Some(r.status);
    if next.Some? {
      var put := AR.PutOrder(s, r.(status := next.value));
      if put.ok { OtherReplay(put.books, r.At(), Listing(Of(s.fills.stored, r.At())), k); }
    }
  }

  lemma {:induction false} ReplayWellKeyed(s: EM.Books, j: Key, fills: seq<Fill>)
    requires WellKeyed(s.orders)
    ensures WellKeyed(AR.ReplayFills(s, j, fills).books.orders)
    decreases |fills|
  {
    if fills != [] && j in s.orders {
      var put := AR.PutOrder(s, AR.ApplyFillToOrder(s.orders[j], fills[0]));
      if put.ok { ReplayWellKeyed(put.books, j, fills[1..]); }
    }
  }

  lemma ApplyWellKeyed(s: EM.Books, e: AR.Event)
    requires AR.Replayable(s) && WellKeyed(s.orders)
    ensures WellKeyed(AR.Apply(s, e).orders)
  {
    match e
    case FillEvent(f) =>
    case Report(r) =>
      assert Filed(Of(s.fills.stored, r.At()), r.At());
      var known := r.At() in s.orders;
      var next := if known then AR.NextOrderStatus(s.orders[r.At()].status, r.status) else Some(r.status);
      if next.Some? {
        var put := AR.PutOrder(s, r.(status := next.value));
        if put.ok { ReplayWellKeyed(put.books, r.At(), Listing(Of(s.fills.stored, r.At()))); }
      }
  }

  /** The order is cached all along the run, and no fill of it is in the run. */
  ghost predicate Undisturbed(s: EM.Books, events: seq<AR.Event>, k: Key)
    requires AR.Replayable(s)
    decreases |events|
  {
    k in s.orders &&
    (events == [] || ((events[0].FillEvent? ==> events[0].fill.At() != k)
                      && Undisturbed(AR.Apply(s, events[0]), events[1..], k)))
  }

  /** The order is final, and has whatever fills are stored for it. */
  ghost predicate Over(s: EM.Books, k: Key) {
    k in s.orders && Final(s.orders[k].status) && (0.0 < s.orders[k].filled || Of(s.fills.stored, k) == map[])
  }

  lemma OverStays(s: EM.Books, e: AR.Event, k: Key)
    requires AR.Replayable(s) && WellKeyed(s.orders) && Over(s, k) && (e.FillEvent? ==> e.fill.At() != k)
    requires k in AR.Apply(s, e).orders && (e.Report? ==> e.order.Valid())
    ensures Over(AR.Apply(s, e), k) && AR.Apply(s, e).orders[k].status == s.orders[k].status
  {
    match e
    case FillEvent(f) => OtherFill(s, f, k);
    case Report(r) =>
      if r.At() != k {
        OtherReport(s, r, k);
      } else if r.filled < s.orders[k].filled {
        assert AR.Apply(s, e) == s;
      } else {
        ReportTakenIff(s, r);
        if AR.ApplyOrder(s, r).ok { ReportReplaces(s, r); }
      }
  }

  ghost predicate ReportsValid(events: seq<AR.Event>) {
    forall e :: e in events && e.Report? ==> e.order.Valid()
  }

  /** Over any run of valid reports on any orders and of fills of others, an order that is Denied, Filled, Rejected or
      Expired keeps that status. */
  lemma {:induction false} FinalForGood(s: EM.Books, events: seq<AR.Event>, k: Key)
    requires AR.Replayable(s) && WellKeyed(s.orders) && Over(s, k) && ReportsValid(events) && Undisturbed(s, events, k)
    ensures k in AR.Run(s, events).orders && AR.Run(s, events).orders[k].status == s.orders[k].status
    decreases |events|
  {
    if events != [] {
      assert events[0] in events;
      OverStays(s, events[0], k);
      ApplyWellKeyed(s, events[0]);
      FinalForGood(AR.Apply(s, events[0]), events[1..], k);
    }
  }
}
