/** The execution manager and the account reconciler side by side, each over its own books, fed the same events. */
module Agreement {
  import opened Model
  import opened OrderCache
  import opened Fills
  import EM = ExecutionManager
  import AR = AccountReconciler

  datatype Pair = Pair(manager: EM.Books, account: EM.Books) {
    ghost predicate Ready() {
      EM.Replayable(manager) && AR.Replayable(account)
    }

    /** Both hold the order, alike but for the time of the last update, and the same fills of it. */
    ghost predicate Agree(k: Key) {
      && k in manager.orders && k in account.orders && EM.SameButTime(account.orders[k], manager.orders[k])
      && Of(account.fills.stored, k) == Of(manager.fills.stored, k)
    }

    ghost function Next(e: AR.Event): (p: Pair)
      requires Ready()
      ensures p.Ready()
    {
      Pair(match e
           case Report(r) => EM.ApplyOrderReport(manager, r).books
           case FillEvent(f) => EM.ApplyFill(manager, f).books,
           AR.Apply(account, e))
    }
  }

  /** An order, by key and quantity, and the trades that will be reported for it. */
  datatype Ticket = Ticket(at: Key, quantity: real, trades: ByTrade) {
    ghost predicate Good() {
      0.0 < quantity && Filed(trades, at) && Quantity(trades) <= quantity
    }

    /** One of the trades, or a valid report of the order that adds no filled quantity of its own. */
    predicate Brings(p: Pair, e: AR.Event) {
      match e
      case FillEvent(f) => f.trade in trades && trades[f.trade] == f
      case Report(r) => r.At() == at && r.Valid() && r.quantity == quantity && AR.Plain(p.account, r, k => quantity)
    }

    ghost predicate BringsAll(p: Pair, events: seq<AR.Event>)
      requires p.Ready()
      decreases |events|
    {
      events == [] || (Brings(p, events[0]) && BringsAll(p.Next(events[0]), events[1..]))
    }
  }

  /** The report leads both reducers to the same order: it repeats the filled quantity and the status rules agree, or it
      reports none for a filled order that both hold to be over. */
  predicate Harmonious(o: Order, r: Order) {
    if r.filled == o.filled then AR.StatusRulesAgree(o.status, r.status)
    else o.status.IsTerminal() && o.status != r.status
  }

  ghost predicate AllHarmonious(k: Key, p: Pair, events: seq<AR.Event>)
    requires p.Ready()
    decreases |events|
  {
    events == [] ||
    (&& (events[0].Report? ==> k in p.manager.orders && Harmonious(p.manager.orders[k], events[0].order))
     && AllHarmonious(k, p.Next(events[0]), events[1..]))
  }

  ghost predicate AgreeAllAlong(k: Key, p: Pair, events: seq<AR.Event>)
    requires p.Ready()
    decreases |events|
  {
    p.Agree(k) && (events == [] || AgreeAllAlong(k, p.Next(events[0]), events[1..]))
  }

  // ----- The trades that both have applied -----

  /** Both reducers have stored and applied the trades in `ids` and no others. */
  ghost function Match(g: Ticket, ids: set<Id>, p: Pair): EM.Comparison {
    if p.Agree(g.at) && Sums(g, ids, p.manager.orders[g.at])
       && Of(p.manager.fills.stored, g.at) == EM.Pick(g.trades, ids) && Of(p.manager.fills.deferred, g.at) == map[]
       && forall t :: t in g.trades ==> (Key(g.at.account, t) in p.manager.fills.trades <==> t in ids)
    then EM.Agrees else EM.Differs
  }

  ghost predicate Sums(g: Ticket, ids: set<Id>, o: Order) {
    o.Valid() && o.At() == g.at && o.quantity == g.quantity && o.filled == Quantity(EM.Pick(g.trades, ids))
  }

  // ----- Fills -----

  lemma FillSums(g: Ticket, ids: set<Id>, o: Order, f: Fill)
    requires g.Good() && Sums(g, ids, o) && f.trade in g.trades && g.trades[f.trade] == f && f.trade !in ids
    ensures !EM.Overfills(o, f) && Normalize(EM.FillOrder(o, f)) == EM.FillOrder(o, f)
    ensures Sums(g, ids + {f.trade}, EM.FillOrder(o, f))
  {
    var picked := EM.Pick(g.trades, ids);
    EM.PickAdd(g.trades, ids, f);
    QuantityAdd(picked, f);
    QuantityMonotone(picked[f.trade := f], g.trades);
  }

  /** Two orders alike but for the time are filled alike. */
  lemma FilledAlike(o: Order, p: Order, f: Fill)
    requires EM.SameButTime(p, o) && o.Valid() && 0.0 < o.quantity && f.Valid() && !EM.Overfills(o, f)
    requires Normalize(EM.FillOrder(o, f)) == EM.FillOrder(o, f) && EM.FillOrder(o, f).Valid()
    ensures var next := AR.ApplyFillToOrder(p, f);
            EM.SameButTime(next, EM.FillOrder(o, f)) && Normalize(next) == next && next.Valid()
  {
    AR.FillsAlike(p, f);
  }

  lemma FillKnown(g: Ticket, ids: set<Id>, p: Pair, f: Fill)
    requires g.Good() && p.Ready() && Match(g, ids, p).Agrees? && f.trade in g.trades && g.trades[f.trade] == f
    requires f.trade in ids
    ensures p.Next(AR.FillEvent(f)) == p
  {
  }

  lemma PutMatches(g: Ticket, ids: set<Id>, p: Pair, f: Fill, o: Order, q: Order)
    requires Match(g, ids, p).Agrees? && f.trade in g.trades && g.trades[f.trade] == f && f.trade !in ids
    requires f.At() == g.at && EM.SameButTime(q, o) && Sums(g, ids + {f.trade}, o)
    ensures Match(g, ids + {f.trade}, Pair(EM.Books(Stored(p.manager.orders, o), p.manager.fills.Put(f)),
                                           EM.Books(Stored(p.account.orders, q), p.account.fills.Put(f)))).Agrees?
  {
    EM.PickAdd(g.trades, ids, f);
  }

  lemma FillMatches(g: Ticket, ids: set<Id>, p: Pair, f: Fill)
    requires g.Good() && p.Ready() && Match(g, ids, p).Agrees? && f.trade in g.trades && g.trades[f.trade] == f
    ensures Match(g, ids + {f.trade}, p.Next(AR.FillEvent(f))).Agrees?
  {
    if f.trade in ids {
      FillKnown(g, ids, p, f);
      assert ids + {f.trade} == ids;
    } else {
      var o, q := p.manager.orders[g.at], p.account.orders[g.at];
      FillSums(g, ids, o, f);
      FilledAlike(o, q, f);
      EM.FillApplies(p.manager, f, o);
      PutMatches(g, ids, p, f, EM.FillOrder(o, f), AR.ApplyFillToOrder(q, f));
    }
  }

  // ----- Reports -----

  /** With no filled quantity there are no trades. */
  lemma NoTrades(g: Ticket, ids: set<Id>)
    requires g.Good()
    ensures Quantity(EM.Pick(g.trades, ids)) == 0.0 ==> EM.Pick(g.trades, ids) == map[]
    ensures 0.0 <= Quantity(EM.Pick(g.trades, ids))
  {
    EM.Positive(EM.Pick(g.trades, ids));
  }

  lemma PlainSums(g: Ticket, ids: set<Id>, o: Order, r: Order)
    requires Sums(g, ids, o) && r.Valid() && r.At() == g.at && r.quantity == g.quantity && r.filled == o.filled
    requires r.filled == 0.0 ==> !r.status.Filled?
    ensures Sums(g, ids, Normalize(r))
  {
  }

  /** A report that repeats the filled quantity is taken alike exactly when the status rules agree. */
  lemma RepeatMatches(g: Ticket, ids: set<Id>, p: Pair, r: Order)
    requires g.Good() && p.Ready() && Match(g, ids, p).Agrees? && g.Brings(p, AR.Report(r))
    requires r.filled == p.manager.orders[g.at].filled
    ensures var next := p.Next(AR.Report(r)); var o := p.manager.orders[g.at];
            if AR.StatusRulesAgree(o.status, r.status) then Match(g, ids, next).Agrees? else !next.Agree(g.at)
  {
    var o := p.manager.orders[g.at];
    RepeatNext(g, ids, p, r);
    PlainSums(g, ids, o, r);
    var next := AR.NextOrderStatus(o.status, r.status);
    if next.Some? { AR.KeptValid(r, next.value); }
  }

  lemma RepeatNext(g: Ticket, ids: set<Id>, p: Pair, r: Order)
    requires g.Good() && p.Ready() && Match(g, ids, p).Agrees? && g.Brings(p, AR.Report(r))
    requires r.filled == p.manager.orders[g.at].filled
    ensures p.Next(AR.Report(r)).manager ==
              if EM.TransitionAllowed(p.manager.orders, r)
              then EM.Books(Stored(p.manager.orders, Normalize(r)), p.manager.fills.ClearDeferred(g.at))
              else p.manager
    ensures p.Next(AR.Report(r)).account ==
              match AR.NextOrderStatus(p.manager.orders[g.at].status, r.status)
              case None => p.account
              case Some(next) => p.account.(orders := Stored(p.account.orders, Normalize(r.(status := next))))
  {
    NoTrades(g, ids);
    AR.KeptValid(r, r.status);
    EM.ReportAlone(p.manager, r);
    AR.ReconcilerRepeats(p.account, r);
  }

  /** A report of no filled quantity on a filled order is refused by the reconciler, and by the manager exactly when the
      order is over. */
  lemma UnfillMatches(g: Ticket, ids: set<Id>, p: Pair, r: Order)
    requires g.Good() && p.Ready() && Match(g, ids, p).Agrees? && g.Brings(p, AR.Report(r))
    requires r.filled != p.manager.orders[g.at].filled
    ensures var next := p.Next(AR.Report(r)); var o := p.manager.orders[g.at];
            if o.status.IsTerminal() && o.status != r.status then next == p else !next.Agree(g.at)
  {
    NoTrades(g, ids);
    AR.KeptValid(r, r.status);
    EM.ReportAlone(p.manager, r);
  }

  /** From books that agree, over any run of the trades and of plain reports, the two reducers agree all along exactly
      when every report is harmonious. */
  lemma {:induction false} AgreeIff(g: Ticket, ids: set<Id>, p: Pair, events: seq<AR.Event>)
    requires g.Good() && p.Ready() && Match(g, ids, p).Agrees? && g.BringsAll(p, events)
    ensures AgreeAllAlong(g.at, p, events) <==> AllHarmonious(g.at, p, events)
    decreases |events|
  {
    if events != [] {
      var next := p.Next(events[0]);
      match events[0]
      case FillEvent(f) =>
        FillMatches(g, ids, p, f);
        AgreeIff(g, ids + {f.trade}, next, events[1..]);
      case Report(r) =>
        if r.filled == p.manager.orders[g.at].filled {
          RepeatMatches(g, ids, p, r);
        } else {
          UnfillMatches(g, ids, p, r);
        }
        if Harmonious(p.manager.orders[g.at], r) { AgreeIff(g, ids, next, events[1..]); }
    }
  }

  // ----- Behind the opening report -----

  ghost function TicketOf(c: EM.Arrivals): Ticket {
    Ticket(c.report.At(), c.report.quantity, c.trades)
  }

  /** Where the two reducers stand once an order is opened, among fills on either side of the report. */
  ghost function Opened(c: EM.Arrivals, before: seq<Fill>, after: seq<Fill>): (p: Pair)
    requires AR.Replayable(c.start)
    ensures p.Ready()
  {
    Pair(EM.Run(c.start, before, c.report, after).books, AR.Interleaved(c.start, before, c.report, after))
  }

  lemma CanonicalSums(c: EM.Arrivals, ids: set<Id>, o: Order)
    requires EM.SameButTime(o, EM.Canonical(c.report, EM.Pick(c.trades, ids)))
    ensures Sums(TicketOf(c), ids, o)
  {
    AR.CanonicalValid(c, ids);
  }

  lemma SeenMatches(c: EM.Arrivals, ids: set<Id>, p: Pair)
    requires c.Sees(EM.Local(true, ids, ids, {}), p.manager) && AR.Sees(c, true, ids, p.account)
    requires Of(c.start.fills.stored, c.report.At()) == map[]
    ensures Match(TicketOf(c), ids, p).Agrees?
  {
    assert EM.Pick(c.trades, {}) == map[];
    assert c.StoredWith(ids) == EM.Pick(c.trades, ids);
    CanonicalSums(c, ids, p.manager.orders[c.report.At()]);
  }

  lemma OpenedMatches(c: EM.Arrivals, before: seq<Fill>, after: seq<Fill>)
    requires AR.Replayable(c.start) && Of(c.start.fills.stored, c.report.At()) == map[]
    requires EM.From(before, c.trades) && EM.From(after, c.trades) && EM.LegIds(before) == {}
    ensures Match(TicketOf(c), EM.Ids(before) + EM.Ids(after), Opened(c, before, after)).Agrees?
  {
    EM.RunSettles(c, before, after);
    AR.InterleavedSeen(c, before, after);
    var ids := EM.Ids(before) + EM.Ids(after);
    assert ids - {} == ids;
    SeenMatches(c, ids, Opened(c, before, after));
  }

  /** So they agree behind an opening report too, with fills on either side of it. */
  lemma AgreeBehindOpening(c: EM.Arrivals, before: seq<Fill>, after: seq<Fill>, events: seq<AR.Event>)
    requires AR.Replayable(c.start) && Of(c.start.fills.stored, c.report.At()) == map[]
    requires EM.From(before, c.trades) && EM.From(after, c.trades) && EM.LegIds(before) == {}
    requires TicketOf(c).BringsAll(Opened(c, before, after), events)
    ensures var p := Opened(c, before, after);
            AgreeAllAlong(c.report.At(), p, events) <==> AllHarmonious(c.report.At(), p, events)
  {
    OpenedMatches(c, before, after);
    AgreeIff(TicketOf(c), EM.Ids(before) + EM.Ids(after), Opened(c, before, after), events);
  }

  // ----- Where they part -----

  /** A report and one fill that leaves part of the order open. */
  ghost predicate PartlyFilled(c: EM.Arrivals, f: Fill) {
    && AR.Replayable(c.start) && Of(c.start.fills.stored, c.report.At()) == map[]
    && c.trades == map[f.trade := f] && f.quantity < c.report.quantity
  }

  lemma PartlyFilledOrder(c: EM.Arrivals, f: Fill)
    requires PartlyFilled(c, f)
    ensures var p := Opened(c, [], [f]);
            && Match(TicketOf(c), {f.trade}, p).Agrees?
            && p.manager.orders[c.report.At()].status.PartiallyFilled?
            && p.manager.orders[c.report.At()].filled == f.quantity
  {
    EM.OneId(f);
    EM.OneTrade(f);
    assert EM.From([f], c.trades) && {} + {f.trade} == {f.trade} - {} == {f.trade};
    OpenedMatches(c, [], [f]);
    EM.RunSettles(c, [], [f]);
    assert EM.Pick(c.trades, {f.trade}) == c.trades;
  }

  /** A venue that takes a partly filled order back to Accepted is believed by the manager and refused by the
      reconciler. */
  lemma BackToAcceptedParts(c: EM.Arrivals, f: Fill)
    requires PartlyFilled(c, f)
    ensures var p := Opened(c, [], [f]); var r := c.report.(status := Accepted, filled := f.quantity);
            p.Agree(r.At()) && TicketOf(c).Brings(p, AR.Report(r)) && !p.Next(AR.Report(r)).Agree(r.At())
  {
    PartlyFilledOrder(c, f);
    AcceptedParts(TicketOf(c), {f.trade}, Opened(c, [], [f]), c.report.(status := Accepted, filled := f.quantity));
  }

  lemma AcceptedParts(g: Ticket, ids: set<Id>, p: Pair, r: Order)
    requires g.Good() && p.Ready() && Match(g, ids, p).Agrees?
    requires r.Valid() && r.At() == g.at && r.quantity == g.quantity
    requires p.manager.orders[g.at].status.PartiallyFilled? && r.status.Accepted?
    requires r.filled == p.manager.orders[g.at].filled
    ensures g.Brings(p, AR.Report(r)) && !p.Next(AR.Report(r)).Agree(g.at)
  {
    assert !AR.StatusRulesAgree(PartiallyFilled, Accepted);
    RepeatMatches(g, ids, p, r);
  }

  /** A report that it is PartiallyFilled with no filled quantity resets the order in the manager only. */
  lemma UnfillParts(c: EM.Arrivals, f: Fill)
    requires PartlyFilled(c, f)
    ensures var p := Opened(c, [], [f]); var r := c.report.(status := PartiallyFilled);
            p.Agree(r.At()) && TicketOf(c).Brings(p, AR.Report(r)) && !p.Next(AR.Report(r)).Agree(r.At())
  {
    PartlyFilledOrder(c, f);
    UnfillMatches(TicketOf(c), {f.trade}, Opened(c, [], [f]), c.report.(status := PartiallyFilled));
  }

  /** A new fill under an order id that neither knows, with the order's client id, fills the order in the manager
      only. */
  lemma StrayFillParts(p: Pair, k: Key, f: Fill)
    requires p.Ready() && p.Agree(k) && f.Valid() && Key(f.account, f.trade) !in p.manager.fills.trades
    requires f.At() !in p.manager.orders && f.At() !in p.account.orders && !p.manager.fills.Has(f)
    requires var o := p.manager.orders[k];
             && EM.ByClient(p.manager.orders, Key(f.account, f.client)) == Some(o)
             && o.At() == k && o.Valid() && 0.0 < o.quantity && !EM.Overfills(o, f)
    ensures !p.Next(AR.FillEvent(f)).Agree(k)
  {
    EM.FillApplies(p.manager, f, p.manager.orders[k]);
  }
}
