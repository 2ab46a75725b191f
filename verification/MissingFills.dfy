/** Repair of missing fills: replays a venue's fill reports against what the manager already knows. */
module MissingFills {
  import opened Model
  import opened Fills
  import opened Managers
  import EM = ExecutionManager

  datatype Tally = Tally(scanned: nat, lookback: nat, duplicates: nat, applied: nat, deferred: nat)

  datatype Repair = Repair(books: EM.Books, tally: Tally, ok: bool)

  predicate TooOld(f: Fill, from: Option<Time>) {
    from.Some? && f.timestamp < from.value
  }

  predicate Recorded(b: FillBook, f: Fill) {
    Key(f.account, f.trade) in b.trades || b.Defers(f)
  }

  /** One report of the repair. */
  ghost function RepairOne(s: EM.Books, t: Tally, f: Fill, from: Option<Time>): Repair {
    if !f.Valid() then Repair(s, t, false)
    else
      var t := t.(scanned := t.scanned + 1);
      if TooOld(f, from) then Repair(s, t.(lookback := t.lookback + 1), true)
      else if Recorded(s.fills, f) then Repair(s, t.(duplicates := t.duplicates + 1), true)
      else
        var step := EM.ApplyFill(s, f);
        if step.outcome.IsError() then Repair(step.books, t, false)
        else if step.outcome.FillStored? then Repair(step.books, t.(applied := t.applied + 1), true)
        else if step.books.fills.Defers(f) then Repair(step.books, t.(deferred := t.deferred + 1), true)
        else Repair(step.books, t, true)
  }

  ghost function RepairAll(s: EM.Books, t: Tally, reports: seq<Fill>, from: Option<Time>): Repair
    decreases |reports|
  {
    if reports == [] then Repair(s, t, true)
    else
      var one := RepairOne(s, t, reports[0], from);
      if one.ok then RepairAll(one.books, one.tally, reports[1..], from) else one
  }

  predicate Accounted(t: Tally) {
    t.scanned == t.lookback + t.duplicates + t.applied + t.deferred
  }

  /** Every report was too old or is recorded. */
  ghost predicate AllRecorded(b: FillBook, reports: seq<Fill>, from: Option<Time>) {
    forall f :: f in reports ==> f.Valid() && (TooOld(f, from) || Recorded(b, f))
  }

  /** A fill applied without error is recorded, and nothing recorded is forgotten. */
  lemma ApplyRecords(s: EM.Books, f: Fill)
    requires s.fills.Exact() && f.Valid() && !Recorded(s.fills, f)
    ensures var step := EM.ApplyFill(s, f);
            && step.books.fills.Exact()
            && (step.outcome.FillStored? ==> Recorded(step.books.fills, f))
            && (step.outcome.FillSkipped? ==> step.books.fills.Defers(f))
  {
    s.fills.PutExact(f);
    DeferExact(s.fills, f);
  }

  lemma ApplyKeeps(s: EM.Books, f: Fill, g: Fill)
    ensures Recorded(s.fills, g) ==> Recorded(EM.ApplyFill(s, f).books.fills, g)
  {
  }

  lemma RepairOneAccounts(s: EM.Books, t: Tally, f: Fill, from: Option<Time>)
    requires s.fills.Exact()
    ensures var one := RepairOne(s, t, f, from);
            && one.books.fills.Exact()
            && (one.ok ==> (Accounted(t) ==> Accounted(one.tally)) && AllRecorded(one.books.fills, [f], from))
  {
    if f.Valid() && !Recorded(s.fills, f) { ApplyRecords(s, f); }
  }

  lemma RepairOneKeeps(s: EM.Books, t: Tally, f: Fill, from: Option<Time>, g: Fill)
    ensures Recorded(s.fills, g) ==> Recorded(RepairOne(s, t, f, from).books.fills, g)
  {
    ApplyKeeps(s, f, g);
  }

  lemma {:induction false} RepairKeeps(s: EM.Books, t: Tally, reports: seq<Fill>, from: Option<Time>, g: Fill)
    requires Recorded(s.fills, g)
    ensures Recorded(RepairAll(s, t, reports, from).books.fills, g)
    decreases |reports|
  {
    if reports != [] {
      var one := RepairOne(s, t, reports[0], from);
      RepairOneKeeps(s, t, reports[0], from, g);
      if one.ok { RepairKeeps(one.books, one.tally, reports[1..], from, g); }
    }
  }

  /** On success every scanned report is counted once, and every report that is not too old is recorded. */
  lemma {:induction false} RepairAccounts(s: EM.Books, t: Tally, reports: seq<Fill>, from: Option<Time>)
    requires s.fills.Exact()
    ensures var all := RepairAll(s, t, reports, from);
            && all.books.fills.Exact()
            && (all.ok ==> (Accounted(t) ==> Accounted(all.tally)) && AllRecorded(all.books.fills, reports, from))
    decreases |reports|
  {
    if reports != [] {
      var f, one := reports[0], RepairOne(s, t, reports[0], from);
      RepairOneAccounts(s, t, f, from);
      if one.ok {
        RepairAccounts(one.books, one.tally, reports[1..], from);
        assert f in [f];
        if Recorded(one.books.fills, f) { RepairKeeps(one.books, one.tally, reports[1..], from, f); }
        assert forall g :: g in reports ==> g == f || g in reports[1..];
      }
    }
  }

  // ----- What the counters count -----

  /** The deferred fills, by order and trade id. */
  ghost function Waiting(deferred: map<Key, ByTrade>): set<(Key, Id)> {
    set k, t | k in deferred && t in deferred[k] :: (k, t)
  }

  /** How many of the reports are too old. */
  function OldOnes(reports: seq<Fill>, from: Option<Time>): nat
    decreases |reports|
  {
    if reports == [] then 0
    else OldOnes(reports[1..], from) + if from.Some? && reports[0].timestamp < from.value then 1 else 0
  }

  /** A deferred fill adds itself to those waiting, and a stored one its trade to the trades known. */
  lemma DeferCounts(b: FillBook, f: Fill)
    requires !b.Defers(f)
    ensures |Waiting(b.Defer(f).deferred)| == |Waiting(b.deferred)| + 1
  {
    OneMoreWaits(b.deferred, f.At(), f.trade, Of(b.deferred, f.At())[f.trade := f]);
  }

  lemma OneMoreWaits(m: map<Key, ByTrade>, k: Key, t: Id, fills: ByTrade)
    requires t !in Of(m, k) && fills.Keys == Of(m, k).Keys + {t}
    ensures |Waiting(m[k := fills])| == |Waiting(m)| + 1
  {
    forall x ensures x in Waiting(m[k := fills]) <==> x in Waiting(m) || x == (k, t) {
      WaitsBeside(m, k, t, fills, x);
    }
    WaitingIff(m, (k, t));
    OneMore(Waiting(m), Waiting(m[k := fills]), (k, t));
  }

  lemma OneMore(a: set<(Key, Id)>, b: set<(Key, Id)>, x: (Key, Id))
    requires x !in a && forall y :: y in b <==> y in a || y == x
    ensures |b| == |a| + 1
  {
    assert b == a + {x};
  }

  lemma WaitsBeside(m: map<Key, ByTrade>, k: Key, t: Id, fills: ByTrade, x: (Key, Id))
    requires fills.Keys == Of(m, k).Keys + {t}
    ensures x in Waiting(m[k := fills]) <==> x in Waiting(m) || x == (k, t)
  {
    WaitingIff(m, x);
    WaitingIff(m[k := fills], x);
    assert x.1 in fills <==> x.1 in Of(m, k) || x.1 == t;
  }

  lemma WaitingIff(m: map<Key, ByTrade>, x: (Key, Id))
    ensures x in Waiting(m) <==> x.1 in Of(m, x.0)
  {
  }

  lemma PutCounts(b: FillBook, f: Fill)
    requires !b.Has(f) && Key(f.account, f.trade) !in b.trades
    ensures |b.Put(f).trades| == |b.trades| + 1 && b.Put(f).deferred == b.deferred
  {
    assert b.Put(f).trades.Keys == b.trades.Keys + {Key(f.account, f.trade)};
    assert |b.Put(f).trades.Keys| == |b.trades.Keys| + 1;
  }

  /** The tally has moved by what has happened to the books. */
  ghost predicate Tells(s: EM.Books, t: Tally, s': EM.Books, t': Tally) {
    && t'.applied - t.applied == |s'.fills.trades| - |s.fills.trades|
    && t'.deferred - t.deferred == |Waiting(s'.fills.deferred)| - |Waiting(s.fills.deferred)|
  }

  lemma RepairOneTells(s: EM.Books, t: Tally, f: Fill, from: Option<Time>)
    requires s.fills.Exact()
    ensures var one := RepairOne(s, t, f, from);
            one.ok ==> && Tells(s, t, one.books, one.tally) && one.tally.scanned == t.scanned + 1
                       && one.tally.lookback == t.lookback + OldOnes([f], from)
  {
    if f.Valid() && !TooOld(f, from) && !Recorded(s.fills, f) {
      ApplyRecords(s, f);
      ApplyCounts(s, f);
    }
  }

  lemma ApplyCounts(s: EM.Books, f: Fill)
    requires s.fills.Exact() && f.Valid() && !Recorded(s.fills, f)
    ensures var step := EM.ApplyFill(s, f); var b := step.books.fills;
            && (step.outcome.FillStored? ==> |b.trades| == |s.fills.trades| + 1 && b.deferred == s.fills.deferred)
            && (step.outcome.FillSkipped? ==>
                  b.trades == s.fills.trades && |Waiting(b.deferred)| == |Waiting(s.fills.deferred)| + 1)
  {
    s.fills.PutExact(f);
    PutCounts(s.fills, f);
    DeferCounts(s.fills, f);
  }

  /** On success `scanned` is the number of reports, `lookback` of those too old, `applied` of the trades newly stored
      and `deferred` of the fills newly waiting; the duplicates are the rest. */
  lemma {:induction false} RepairTells(s: EM.Books, t: Tally, reports: seq<Fill>, from: Option<Time>)
    requires s.fills.Exact()
    ensures var all := RepairAll(s, t, reports, from);
            all.ok ==> && Tells(s, t, all.books, all.tally) && all.tally.scanned == t.scanned + |reports|
                       && all.tally.lookback == t.lookback + OldOnes(reports, from)
    decreases |reports|
  {
    if reports != [] {
      var one := RepairOne(s, t, reports[0], from);
      RepairOneTells(s, t, reports[0], from);
      RepairOneAccounts(s, t, reports[0], from);
      if one.ok { RepairTells(one.books, one.tally, reports[1..], from); }
    }
  }

  /** A repair of reports that are all recorded only counts them. */
  lemma {:induction false} RepairIdle(s: EM.Books, t: Tally, reports: seq<Fill>, from: Option<Time>)
    requires AllRecorded(s.fills, reports, from)
    ensures var all := RepairAll(s, t, reports, from);
            && all.ok && all.books == s && all.tally.applied == t.applied && all.tally.deferred == t.deferred
            && all.tally.scanned == t.scanned + |reports|
    decreases |reports|
  {
    if reports != [] {
      assert reports[0] in reports;
      RepairIdle(s, RepairOne(s, t, reports[0], from).tally, reports[1..], from);
    }
  }

  /** A second repair with the same reports applies and defers nothing and leaves the cache as it was. */
  lemma RepairIdempotent(s: EM.Books, reports: seq<Fill>, from: Option<Time>)
    requires s.fills.Exact() && RepairAll(s, Tally(0, 0, 0, 0, 0), reports, from).ok
    ensures var again := RepairAll(RepairAll(s, Tally(0, 0, 0, 0, 0), reports, from).books, Tally(0, 0, 0, 0, 0),
                reports, from);
            && again.ok && again.books == RepairAll(s, Tally(0, 0, 0, 0, 0), reports, from).books
            && again.tally.applied == again.tally.deferred == 0
            && again.tally.lookback + again.tally.duplicates == again.tally.scanned == |reports|
  {
    var none := Tally(0, 0, 0, 0, 0);
    var first := RepairAll(s, none, reports, from).books;
    RepairAccounts(s, none, reports, from);
    RepairIdle(first, none, reports, from);
    RepairAccounts(first, none, reports, from);
  }

  method ReconcileFill(m: Manager, tally: Tally, f: Fill, from: Option<Time>) returns (t: Tally, ok: bool)
    requires m.Valid()
    modifies m.orders, m.fills
    ensures m.Valid()
    ensures Repair(m.Books(), t, ok) == RepairOne(old(m.Books()), tally, f, from)
  {
    if !f.Valid() { return tally, false; }
    t, ok := tally.(scanned := tally.scanned + 1), true;
    if TooOld(f, from) {
      t := t.(lookback := t.lookback + 1);
    } else if Recorded(m.fills.book, f) {
      t := t.(duplicates := t.duplicates + 1);
    } else {
      var outcome := m.ApplyFill(f);
      if outcome.IsError() { return t, false; }
      if outcome.FillStored? {
        t := t.(applied := t.applied + 1);
      } else if m.fills.book.Defers(f) {
        t := t.(deferred := t.deferred + 1);
      }
    }
  }

  method ReconcileMissingFills(m: Manager, reports: seq<Fill>, from: Option<Time>) returns (t: Tally, ok: bool)
    requires m.Valid()
    modifies m.orders, m.fills
    ensures m.Valid()
    ensures Repair(m.Books(), t, ok) == RepairAll(old(m.Books()), Tally(0, 0, 0, 0, 0), reports, from)
    ensures ok ==> Accounted(t) && AllRecorded(m.fills.book, reports, from)
    ensures ok ==> Tells(old(m.Books()), Tally(0, 0, 0, 0, 0), m.Books(), t) && t.scanned == |reports|
                   && t.lookback == OldOnes(reports, from)
  {
    RepairTells(m.Books(), Tally(0, 0, 0, 0, 0), reports, from);
    t, ok := Tally(0, 0, 0, 0, 0), true;
    RepairAccounts(m.Books(), t, reports, from);
    for i := 0 to |reports|
      invariant m.Valid() && ok
      invariant RepairAll(old(m.Books()), Tally(0, 0, 0, 0, 0), reports, from) ==
                    RepairAll(m.Books(), t, reports[i..], from)
    {
      assert reports[i..][1..] == reports[i + 1..];
      t, ok := ReconcileFill(m, t, reports[i], from);
      if !ok { return; }
    }
  }
}
