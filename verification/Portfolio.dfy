/**
 The portfolio: positions by id and by instrument, marks, realized profit per account and instrument, a memo of
 unrealized profit, and the set of fills already accounted for.
 */
module Portfolios {
  import opened Model
  import opened Sorting
  import opened Positions

  datatype FillKey = FillKey(account: Id, order: Id, trade: Id)

  function KeyOf(f: Fill): FillKey {
    FillKey(f.account, f.order, f.trade)
  }

  /** A fill without a side is a buy. */
  function Sided(f: Fill): Fill {
    if f.side.NoSide? then f.(side := Buy) else f
  }

  function Venue(f: Fill): Key {
    Key(f.account, f.instrument)
  }

  /** A market event, one payload each; books are given by their prices, best first. */
  datatype MarketEvent =
    | QuoteTick(bid: real, ask: real)
    | BookSnapshot(bids: seq<real>, asks: seq<real>)
    | Ticker(last: real, bid: real, ask: real)
    | TradeTick(price: real)
    | BarClose(close: real)
    | OtherEvent
  {
    /** The mark the event gives a position on that side, zero for none. */
    function Mark(side: PositionSide): real {
      match this
      case QuoteTick(bid, ask) => if side.Short? then ask else bid
      case BookSnapshot(bids, asks) =>
        if side.Short? && asks != [] then asks[0] else if side.Long? && bids != [] then bids[0] else 0.0
      case Ticker(last, bid, ask) => if 0.0 < last then last else if side.Short? then ask else bid
      case TradeTick(price) => price
      case BarClose(close) => close
      case OtherEvent => 0.0
    }
  }

  datatype Ledger = Ledger(
    positions: map<Key, Position>, byInstrument: map<Key, Id>, marks: map<Key, real>, realized: map<Key, real>,
    memo: map<Key, real>, applied: set<FillKey>)
  {
    function PositionAt(k: Key): Option<Position> {
      if k in positions then Some(positions[k]) else None
    }

    function ByInstrument(k: Key): Option<Position> {
      if k in byInstrument then PositionAt(Key(k.account, byInstrument[k])) else None
    }

    function RealizedAt(k: Key): real {
      if k in realized then realized[k] else 0.0
    }

    function HoldingAt(k: Key): Holding {
      Holding(ByInstrument(k), RealizedAt(k))
    }

    /** Unrealized profit recomputed from the current position and mark. */
    function Recomputed(k: Key): real {
      Unrealized(ByInstrument(k), MarkAt(k))
    }

    function MarkAt(k: Key): real {
      if k in marks then marks[k] else 0.0
    }

    function Forget(k: Key): Ledger {
      this.(memo := memo - {k})
    }

    function SetMark(k: Key, price: real): Ledger {
      this.(marks := marks[k := price]).Forget(k)
    }

    function WithPosition(p: Position): Ledger {
      this.(positions := positions[p.At() := p], byInstrument := byInstrument[Key(p.account, p.instrument) := p.id])
    }
  }

  const EMPTY := Ledger(map[], map[], map[], map[], map[], {})

  datatype Posted = Posted(ledger: Ledger, ok: bool)

  /** Accounts for a fill whose previous and next positions are given; `funded` tells whether the balances can take
      it. */
  function Account(l: Ledger, f: Fill, previous: Option<Position>, next: Position, funded: bool): Posted {
    if KeyOf(f) in l.applied then Posted(l, true)
    else
      var delta := RealizedDelta(previous, f);
      var marked := l.(applied := l.applied + {KeyOf(f)},
                       realized := if delta == 0.0 then l.realized
                         else l.realized[Venue(f) := l.RealizedAt(Venue(f)) + delta]);
      if !next.Valid() then Posted(marked, false)
      else if !funded then Posted(marked.WithPosition(next), false)
      else Posted(marked.WithPosition(next).SetMark(Venue(f), f.price), true)
  }

  function PositionId(f: Fill): Id {
    if f.position != NO_ID then f.position else f.instrument
  }

  function ApplyFill(l: Ledger, fill: Fill, funded: bool, div: Division): Posted {
    if !fill.Valid() then Posted(l, false)
    else
      var f := Sided(fill);
      var id := PositionId(f);
      Account(l, f, l.ByInstrument(Venue(f)), NextPosition(l.PositionAt(Key(f.account, id)), f, id, div), funded)
  }

  // ----- Profit over any run of netting fills -----

  datatype Posting = Posting(fill: Fill, funded: bool)

  function Post(l: Ledger, run: seq<Posting>, div: Division): Ledger {
    if run == [] then l
    else ApplyFill(Post(l, run[..|run| - 1], div), run[|run| - 1].fill, run[|run| - 1].funded, div).ledger
  }

  ghost function Keys(h: seq<Fill>): set<FillKey> {
    set f | f in h :: KeyOf(f)
  }

  /** The valid fills of a run, each fill key the first time it occurs. */
  ghost function Distinct(run: seq<Posting>): seq<Fill> {
    if run == [] then []
    else
      var before, f := Distinct(run[..|run| - 1]), run[|run| - 1].fill;
      if f.Valid() && KeyOf(f) !in Keys(before) then before + [Sided(f)] else before
  }

  ghost function Only(h: seq<Fill>, k: Key): seq<Fill> {
    if h == [] then []
    else
      var before, f := Only(h[..|h| - 1], k), h[|h| - 1];
      if Venue(f) == k then before + [f] else before
  }

  ghost predicate Netting(run: seq<Posting>) {
    forall i :: 0 <= i < |run| ==> run[i].fill.position == NO_ID
  }

  /** The ledger holds, for every instrument, what its own fills alone would give. */
  ghost predicate Reflects(l: Ledger, h: seq<Fill>, div: Division) {
    && l.applied == Keys(h)
    && forall k :: HoldsAt(l, k, Hold(Only(h, k), div))
  }

  ghost predicate HoldsAt(l: Ledger, k: Key, b: Holding) {
    l.HoldingAt(k) == b && (k in l.byInstrument <==> k in l.positions)
      && (k in l.byInstrument ==> l.byInstrument[k] == k.id)
  }

  lemma {:induction false} OnlyProper(h: seq<Fill>, k: Key)
    requires AllProper(h)
    ensures AllProper(Only(h, k)) && forall i :: 0 <= i < |Only(h, k)| ==> Venue(Only(h, k)[i]) == k
  {
    if h != [] { OnlyProper(h[..|h| - 1], k); }
  }

  lemma OnlyAppend(h: seq<Fill>, f: Fill, k: Key, div: Division)
    ensures Only(h + [f], k) == if Venue(f) == k then Only(h, k) + [f] else Only(h, k)
    ensures Venue(f) == k ==> var b := Hold(Only(h, k), div);
              Hold(Only(h + [f], k), div) == Holding(Some(NextPosition(b.position, f, f.instrument, div)),
                b.realized + RealizedDelta(b.position, f))
  {
    assert (h + [f])[..|h|] == h;
    assert (Only(h, k) + [f])[..|Only(h, k)|] == Only(h, k);
  }

  lemma AccountHere(l: Ledger, f: Fill, previous: Option<Position>, p: Position, funded: bool)
    requires KeyOf(f) !in l.applied && p.Valid() && p.At() == Key(p.account, p.instrument) == Venue(f)
    ensures HoldsAt(Account(l, f, previous, p, funded).ledger, Venue(f),
                    Holding(Some(p), l.RealizedAt(Venue(f)) + RealizedDelta(previous, f)))
  {
  }

  lemma AccountElsewhere(l: Ledger, f: Fill, previous: Option<Position>, p: Position, funded: bool, k: Key, b: Holding)
    requires HoldsAt(l, k, b) && p.At() == Key(p.account, p.instrument) == Venue(f) && k != Venue(f)
    ensures HoldsAt(Account(l, f, previous, p, funded).ledger, k, b)
  {
  }

  /** A new netting fill moves its own instrument by one step of the reducer. */
  lemma NewFillHere(l: Ledger, fill: Fill, funded: bool, div: Division, b: Holding)
    requires HoldsAt(l, Venue(fill), b) && fill.Valid() && fill.position == NO_ID && KeyOf(fill) !in l.applied
    requires NextPosition(b.position, Sided(fill), fill.instrument, div).Valid()
    ensures var f := Sided(fill); HoldsAt(ApplyFill(l, fill, funded, div).ledger, Venue(fill),
              Holding(Some(NextPosition(b.position, f, f.instrument, div)), b.realized + RealizedDelta(b.position, f)))
  {
    var f := Sided(fill);
    assert l.PositionAt(Venue(f)) == b.position;
    AccountHere(l, f, b.position, NextPosition(b.position, f, f.instrument, div), funded);
  }

  lemma NewFillElsewhere(l: Ledger, fill: Fill, funded: bool, div: Division, k: Key, b: Holding)
    requires HoldsAt(l, k, b) && fill.position == NO_ID && k != Venue(fill)
    ensures HoldsAt(ApplyFill(l, fill, funded, div).ledger, k, b)
  {
    var f := Sided(fill);
    var p := NextPosition(l.PositionAt(Key(f.account, PositionId(f))), f, PositionId(f), div);
    AccountElsewhere(l, f, l.ByInstrument(Venue(f)), p, funded, k, b);
  }

  lemma NewFillReflected(l: Ledger, h: seq<Fill>, fill: Fill, funded: bool, div: Division, eps: real)
    requires Reflects(l, h, div) && AllProper(h) && Rounds(div, eps)
    requires fill.Valid() && fill.position == NO_ID && KeyOf(fill) !in Keys(h)
    ensures Reflects(ApplyFill(l, fill, funded, div).ledger, h + [Sided(fill)], div)
  {
    var f, next := Sided(fill), ApplyFill(l, fill, funded, div).ledger;
    assert next.applied == Keys(h + [f]);
    forall k ensures HoldsAt(next, k, Hold(Only(h + [f], k), div)) {
      OnlyAppend(h, f, k, div);
      assert HoldsAt(l, k, Hold(Only(h, k), div));
      if k == Venue(fill) {
        OnlyProper(h, k);
        HoldingNet(Only(h, k), div, eps);
        NextWellFormed(Hold(Only(h, k), div).position, f, f.instrument, div, eps);
        NewFillHere(l, fill, funded, div, Hold(Only(h, k), div));
      } else {
        NewFillElsewhere(l, fill, funded, div, k, Hold(Only(h, k), div));
      }
    }
  }

  lemma {:induction false} DistinctProper(run: seq<Posting>)
    ensures AllProper(Distinct(run))
  {
    if run != [] { DistinctProper(run[..|run| - 1]); }
  }

  lemma {:induction false} PostReflects(run: seq<Posting>, div: Division, eps: real)
    requires Netting(run) && Rounds(div, eps)
    ensures Reflects(Post(EMPTY, run, div), Distinct(run), div)
  {
    if run != [] {
      var before, last := run[..|run| - 1], run[|run| - 1];
      PostReflects(before, div, eps);
      DistinctProper(before);
      if last.fill.Valid() && KeyOf(last.fill) !in Keys(Distinct(before)) {
        NewFillReflected(Post(EMPTY, before, div), Distinct(before), last.fill, last.funded, div, eps);
      }
    } else {
      assert forall k :: HoldsAt(EMPTY, k, Hold(Only([], k), div));
    }
  }

  lemma PostHolds(run: seq<Posting>, k: Key, div: Division, eps: real)
    requires Netting(run) && Rounds(div, eps)
    ensures Post(EMPTY, run, div).HoldingAt(k) == Hold(Only(Distinct(run), k), div) && AllProper(Only(Distinct(run), k))
  {
    PostReflects(run, div, eps);
    DistinctProper(run);
    OnlyProper(Distinct(run), k);
    assert HoldsAt(Post(EMPTY, run, div), k, Hold(Only(Distinct(run), k), div));
  }

  /** Profit per instrument after any run of netting fills, in any mix of accounts, sides, flips and duplicates. */
  lemma PortfolioMarkToMarket(run: seq<Posting>, k: Key, l: Ledger, h: seq<Fill>, mark: real)
    requires Netting(run) && l == Post(EMPTY, run, Exactly) && h == Only(Distinct(run), k)
    ensures ResidualOf(l.HoldingAt(k), h) == 0.0
    ensures 0.0 < mark ==> Profit(l.HoldingAt(k), mark) == NetOf(h) * mark - PaidOf(h)
  {
    ExactlyRounds();
    PostHolds(run, k, Exactly, 0.0);
    MarkToMarket(l.HoldingAt(k), h, mark);
  }

  /** The same with rounded division: the identity is off by at most the rounding times the averaged sizes. */
  lemma PortfolioDrift(run: seq<Posting>, k: Key, l: Ledger, h: seq<Fill>, div: Division, eps: real)
    requires Netting(run) && Rounds(div, eps) && l == Post(EMPTY, run, div) && h == Only(Distinct(run), k)
    ensures Abs(ResidualOf(l.HoldingAt(k), h)) <= eps * Averaged(h)
  {
    PostHolds(run, k, div, eps);
    DriftOf(l.HoldingAt(k), h, div, eps);
  }

  // ----- The unrealized-profit memo -----

  /** A position id keeps its instrument: what the instrument index leads to is a position in that instrument. */
  ghost predicate Filed(l: Ledger) {
    && (forall k :: k in l.positions ==> l.positions[k].At() == k)
    && (forall k :: k in l.byInstrument ==> l.ByInstrument(k).Some? && l.ByInstrument(k).value.instrument == k.id)
  }

  ghost predicate MemoFresh(l: Ledger) {
    forall k :: k in l.memo ==> l.memo[k] == l.Recomputed(k)
  }

  ghost predicate Coherent(l: Ledger) {
    Filed(l) && MemoFresh(l)
  }

  function PutPosition(l: Ledger, p: Position): Posted {
    if !p.Valid() then Posted(l, false)
    else
      var k := Key(p.account, p.instrument);
      var put := l.WithPosition(p).Forget(k);
      Posted(if 0.0 < p.entry && !(k in l.marks && 0.0 < l.marks[k]) then put.SetMark(k, p.entry) else put, true)
  }

  function UpdateAccount(l: Ledger, account: Id): Ledger {
    l.(memo := map k | k in l.memo && k.account != account :: l.memo[k])
  }

  function MarkPosition(l: Ledger, p: Position, e: MarketEvent): Ledger {
    if p.IsOpen() && 0.0 < e.Mark(p.side) then l.SetMark(Key(p.account, p.instrument), e.Mark(p.side)) else l
  }

  function MarkPositions(l: Ledger, ps: seq<Position>, e: MarketEvent): Ledger {
    if ps == [] then l else MarkPosition(MarkPositions(l, ps[..|ps| - 1], e), ps[|ps| - 1], e)
  }

  function Query(l: Ledger, k: Key): Ledger {
    if k in l.memo then l else l.(memo := l.memo[k := l.Recomputed(k)])
  }

  /** The calls a portfolio receives; `Market` lists the positions of the event's instrument. */
  datatype Call =
    | FillCall(fill: Fill, funded: bool)
    | FillWithPosition(fill: Fill, previous: Option<Position>, next: Position, funded: bool)
    | PositionCall(position: Position)
    | AccountCall(account: Id)
    | OrderCall(venue: Key)
    | MarkCall(venue: Key, price: real)
    | Market(positions: seq<Position>, event: MarketEvent)
    | QueryCall(venue: Key)

  function Perform(l: Ledger, c: Call): Posted {
    match c
    case FillCall(f, funded) => ApplyFill(l, f, funded, Exactly)
    case FillWithPosition(f, previous, next, funded) =>
      if !f.Valid() then Posted(l, false) else Account(l, Sided(f), previous, next, funded)
    case PositionCall(p) => PutPosition(l, p)
    case AccountCall(a) => Posted(UpdateAccount(l, a), true)
    case OrderCall(k) => Posted(l.Forget(k), true)
    case MarkCall(k, price) => Posted(l.SetMark(k, price), true)
    case Market(ps, e) => Posted(MarkPositions(l, ps, e), true)
    case QueryCall(k) => Posted(Query(l, k), true)
  }

  predicate SameInstrument(l: Ledger, p: Position) {
    p.At() in l.positions ==> l.positions[p.At()].instrument == p.instrument
  }

  predicate IsNew(l: Ledger, f: Fill) {
    f.Valid() && KeyOf(f) !in l.applied
  }

  /** The position a fill leads to. */
  function NextOf(l: Ledger, fill: Fill): Position {
    var f := Sided(fill);
    NextPosition(l.PositionAt(Key(f.account, PositionId(f))), f, PositionId(f), Exactly)
  }

  /** The position a call writes, if any. */
  function Written(l: Ledger, c: Call): Option<Position> {
    match c
    case FillCall(f, _) => if IsNew(l, f) && NextOf(l, f).Valid() then Some(NextOf(l, f)) else None
    case FillWithPosition(f, _, p, _) => if IsNew(l, f) && p.Valid() then Some(p) else None
    case PositionCall(p) => if p.Valid() then Some(p) else None
    case _ => None
  }

  /** Whether a call that writes a position also drops the memo of that position's instrument. */
  predicate Drops(c: Call) {
    match c
    case FillCall(_, funded) => funded
    case FillWithPosition(f, _, p, funded) => funded && InstrumentOf(p) == Venue(f)
    case _ => true
  }

  function InstrumentOf(p: Position): Key {
    Key(p.account, p.instrument)
  }

  /** A position id is never written under another instrument. */
  predicate KeepsInstrument(l: Ledger, c: Call) {
    Written(l, c).Some? ==> SameInstrument(l, Written(l, c).value)
  }

  /** Nothing memoised is worth anything else at its mark once `p` stands in the place of the old position. */
  predicate WorthTheSame(l: Ledger, p: Position) {
    var k := InstrumentOf(p);
    k !in l.memo || Unrealized(Some(p), l.MarkAt(k)) == Unrealized(l.ByInstrument(k), l.MarkAt(k))
  }

  /** The call drops the memo of the position it writes, or did not need to. */
  predicate Harmless(l: Ledger, c: Call) {
    Written(l, c).Some? && !Drops(c) ==> WorthTheSame(l, Written(l, c).value)
  }

  lemma ForgetCoherent(l: Ledger, k: Key)
    requires Coherent(l)
    ensures Coherent(l.Forget(k))
  {
    forall j | j in l.Forget(k).memo ensures l.Forget(k).Recomputed(j) == l.Recomputed(j) {
      assert l.Forget(k).ByInstrument(j) == l.ByInstrument(j);
    }
  }

  lemma SetMarkCoherent(l: Ledger, k: Key, price: real)
    requires Coherent(l)
    ensures Coherent(l.SetMark(k, price))
  {
    var next := l.SetMark(k, price);
    forall j | j in next.memo ensures next.Recomputed(j) == l.Recomputed(j) {
      assert next.ByInstrument(j) == l.ByInstrument(j);
    }
  }

  /** Writing a position touches no other instrument of the account. */
  lemma PositionElsewhere(l: Ledger, p: Position, j: Key)
    requires Filed(l) && SameInstrument(l, p) && j != Key(p.account, p.instrument)
    ensures l.WithPosition(p).ByInstrument(j) == l.ByInstrument(j)
  {
  }

  lemma WithPositionCoherent(l: Ledger, p: Position)
    requires Coherent(l) && SameInstrument(l, p)
    ensures Coherent(l.WithPosition(p).Forget(Key(p.account, p.instrument)))
  {
    var k := Key(p.account, p.instrument);
    var next := l.WithPosition(p).Forget(k);
    assert next.ByInstrument(k) == Some(p);
    forall j | j != k ensures next.ByInstrument(j) == l.ByInstrument(j) {
      PositionElsewhere(l, p, j);
    }
    forall j | j in next.memo ensures next.memo[j] == next.Recomputed(j) {
      assert next.Recomputed(j) == l.Recomputed(j);
    }
  }

  /** Writing a position without dropping its memo leaves a stale value exactly when the position is worth something
      else. */
  lemma WithPositionCoherentIff(l: Ledger, p: Position)
    requires Coherent(l) && SameInstrument(l, p)
    ensures Coherent(l.WithPosition(p)) <==> WorthTheSame(l, p)
  {
    var k, next := InstrumentOf(p), l.WithPosition(p);
    assert next.ByInstrument(k) == Some(p);
    forall j | j != k ensures next.ByInstrument(j) == l.ByInstrument(j) { PositionElsewhere(l, p, j); }
    forall j | j != k ensures next.Recomputed(j) == l.Recomputed(j) { }
    assert Filed(next);
    assert WorthTheSame(l, p) <==> (k in next.memo ==> next.memo[k] == next.Recomputed(k));
  }

  /** A mark elsewhere neither helps nor hurts. */
  lemma SetMarkElsewhere(l: Ledger, k: Key, price: real)
    requires Filed(l) && forall j :: j in l.memo && j == k ==> l.memo[j] == l.Recomputed(j)
    ensures Coherent(l.SetMark(k, price)) <==> Coherent(l)
  {
    var next := l.SetMark(k, price);
    forall j ensures next.ByInstrument(j) == l.ByInstrument(j) { }
    forall j | j != k ensures next.Recomputed(j) == l.Recomputed(j) && (j in next.memo <==> j in l.memo) { }
  }

  lemma MarkedCoherent(l: Ledger, applied: set<FillKey>, realized: map<Key, real>)
    requires Coherent(l)
    ensures Coherent(l.(applied := applied, realized := realized))
  {
    var marked := l.(applied := applied, realized := realized);
    forall k ensures marked.ByInstrument(k) == l.ByInstrument(k) && marked.Recomputed(k) == l.Recomputed(k) { }
  }

  /** A position written and then a mark set: the mark drops the right memo only in the position's own instrument. */
  lemma MarkedPositionIff(l: Ledger, p: Position, k: Key, price: real)
    requires Coherent(l) && SameInstrument(l, p)
    ensures Coherent(l.WithPosition(p).SetMark(k, price)) <==> InstrumentOf(p) == k || WorthTheSame(l, p)
  {
    if InstrumentOf(p) == k {
      WithPositionCoherent(l, p);
      SetMarkCoherent(l.WithPosition(p).Forget(k), k, price);
      assert l.WithPosition(p).SetMark(k, price) == l.WithPosition(p).Forget(k).SetMark(k, price);
    } else {
      WithPositionCoherentIff(l, p);
      PositionElsewhere(l, p, k);
      SetMarkElsewhere(l.WithPosition(p), k, price);
    }
  }

  /** A fill accounted for with the given position: coherence is lost exactly when a memo that had to go stays. */
  lemma AccountCoherentIff(l: Ledger, f: Fill, previous: Option<Position>, p: Position, funded: bool)
    requires Coherent(l) && KeyOf(f) !in l.applied && p.Valid() && SameInstrument(l, p)
    ensures Coherent(Account(l, f, previous, p, funded).ledger) <==>
              (funded && InstrumentOf(p) == Venue(f)) || WorthTheSame(l, p)
  {
    var done := Account(l, f, previous, p, funded).ledger;
    var marked := l.(applied := done.applied, realized := done.realized);
    MarkedCoherent(l, done.applied, done.realized);
    assert WorthTheSame(marked, p) <==> WorthTheSame(l, p) by {
      assert marked.ByInstrument(InstrumentOf(p)) == l.ByInstrument(InstrumentOf(p));
    }
    if funded { MarkedPositionIff(marked, p, Venue(f), f.price); } else { WithPositionCoherentIff(marked, p); }
  }

  lemma PutPositionCoherent(l: Ledger, p: Position)
    requires Coherent(l) && SameInstrument(l, p)
    ensures Coherent(PutPosition(l, p).ledger)
  {
    var k := Key(p.account, p.instrument);
    WithPositionCoherent(l, p);
    SetMarkCoherent(l.WithPosition(p).Forget(k), k, p.entry);
  }

  lemma {:induction false} MarkPositionsCoherent(l: Ledger, ps: seq<Position>, e: MarketEvent)
    requires Coherent(l)
    ensures Coherent(MarkPositions(l, ps, e))
  {
    if ps != [] {
      var before, p := MarkPositions(l, ps[..|ps| - 1], e), ps[|ps| - 1];
      MarkPositionsCoherent(l, ps[..|ps| - 1], e);
      SetMarkCoherent(before, Key(p.account, p.instrument), e.Mark(p.side));
    }
  }

  lemma MemoOnlyCoherent(l: Ledger, memo: map<Key, real>)
    requires Coherent(l) && forall k :: k in memo ==> memo[k] == l.Recomputed(k)
    ensures Coherent(l.(memo := memo))
  {
    var next := l.(memo := memo);
    forall k ensures next.ByInstrument(k) == l.ByInstrument(k) && next.Recomputed(k) == l.Recomputed(k) {}
  }

  lemma RefusedAccount(l: Ledger, f: Fill, previous: Option<Position>, p: Position, funded: bool)
    requires Coherent(l) && (KeyOf(f) in l.applied || !p.Valid())
    ensures Coherent(Account(l, f, previous, p, funded).ledger)
  {
    var done := Account(l, f, previous, p, funded).ledger;
    MarkedCoherent(l, done.applied, done.realized);
    assert done == l.(applied := done.applied, realized := done.realized);
  }

  lemma FillCoherentIff(l: Ledger, c: Call)
    requires Coherent(l) && KeepsInstrument(l, c) && (c.FillCall? || c.FillWithPosition?)
    ensures Coherent(Perform(l, c).ledger) <==> Harmless(l, c)
  {
    if c.fill.Valid() {
      var f := Sided(c.fill);
      var p := if c.FillCall? then NextOf(l, c.fill) else c.next;
      var previous := if c.FillCall? then l.ByInstrument(Venue(f)) else c.previous;
      assert Perform(l, c) == Account(l, f, previous, p, c.funded);
      if Written(l, c).Some? {
        AccountCoherentIff(l, f, previous, p, c.funded);
      } else {
        RefusedAccount(l, f, previous, p, c.funded);
      }
    }
  }

  /** Whatever it returns, a call keeps the memo coherent exactly when it is harmless. */
  lemma PerformCoherentIff(l: Ledger, c: Call)
    requires Coherent(l) && KeepsInstrument(l, c)
    ensures Coherent(Perform(l, c).ledger) <==> Harmless(l, c)
  {
    match c
    case FillCall(_, _) => FillCoherentIff(l, c);
    case FillWithPosition(_, _, _, _) => FillCoherentIff(l, c);
    case PositionCall(p) => if p.Valid() { PutPositionCoherent(l, p); }
    case AccountCall(a) => MemoOnlyCoherent(l, UpdateAccount(l, a).memo);
    case OrderCall(k) => ForgetCoherent(l, k);
    case MarkCall(k, price) => SetMarkCoherent(l, k, price);
    case Market(ps, e) => MarkPositionsCoherent(l, ps, e);
    case QueryCall(k) => MemoOnlyCoherent(l, Query(l, k).memo);
  }

  function PerformAll(l: Ledger, calls: seq<Call>): Ledger {
    if calls == [] then l else Perform(PerformAll(l, calls[..|calls| - 1]), calls[|calls| - 1]).ledger
  }

  /** No call of the run writes a position id under another instrument. */
  ghost predicate AllKeep(l: Ledger, calls: seq<Call>) {
    calls == [] ||
    (AllKeep(l, calls[..|calls| - 1]) && KeepsInstrument(PerformAll(l, calls[..|calls| - 1]), calls[|calls| - 1]))
  }

  ghost predicate AllHarmless(l: Ledger, calls: seq<Call>) {
    calls == [] ||
    (AllHarmless(l, calls[..|calls| - 1]) && Harmless(PerformAll(l, calls[..|calls| - 1]), calls[|calls| - 1]))
  }

  /** The memo is coherent after the run and was so all along. */
  ghost predicate AlwaysCoherent(l: Ledger, calls: seq<Call>) {
    Coherent(PerformAll(l, calls)) && (calls == [] || AlwaysCoherent(l, calls[..|calls| - 1]))
  }

  /** Memo coherence: all along a run every memoised value is up to date if and only if every call is harmless. */
  lemma {:induction false} MemoCoherent(calls: seq<Call>)
    requires AllKeep(EMPTY, calls)
    ensures AlwaysCoherent(EMPTY, calls) <==> AllHarmless(EMPTY, calls)
  {
    if calls != [] {
      var before := calls[..|calls| - 1];
      MemoCoherent(before);
      if AlwaysCoherent(EMPTY, before) { PerformCoherentIff(PerformAll(EMPTY, before), calls[|calls| - 1]); }
    }
  }

  /** And then a query answers with what a recomputation gives. */
  lemma QueryIsRecomputed(calls: seq<Call>, k: Key)
    requires AllKeep(EMPTY, calls) && AllHarmless(EMPTY, calls)
    ensures var l := PerformAll(EMPTY, calls); Query(l, k).memo[k] == l.Recomputed(k)
  {
    MemoCoherent(calls);
  }

  // ----- Where the marks come from -----

  /** The positive price at which the event values a position on that side: what closing it would fetch, so the ask to
      buy a short back and the bid to sell, unless the event names a price of its own. */
  ghost predicate MarkedAt(e: MarketEvent, side: PositionSide, price: real) {
    0.0 < price &&
    match e
    case QuoteTick(bid, ask) => (side.Short? ==> price == ask) && (!side.Short? ==> price == bid)
    case BookSnapshot(bids, asks) =>
      || (side.Short? && 0 < |asks| && price == asks[0])
      || (side.Long? && 0 < |bids| && price == bids[0])
    case Ticker(last, bid, ask) =>
      || price == last
      || (last <= 0.0 && (side.Short? ==> price == ask) && (!side.Short? ==> price == bid))
    case TradeTick(traded) => price == traded
    case BarClose(close) => price == close
    case OtherEvent => false
  }

  /** An open position in the instrument that the event gives a price. */
  ghost predicate Takes(p: Position, e: MarketEvent, k: Key) {
    p.account == k.account && p.instrument == k.id && !p.side.Flat? && p.quantity != 0.0
      && exists price :: MarkedAt(e, p.side, price)
  }

  /** The last of the positions that the event gives a price. */
  ghost function LastTaker(ps: seq<Position>, e: MarketEvent, k: Key): (found: Option<Position>)
    ensures found.None? ==> forall p :: p in ps ==> !Takes(p, e, k)
    ensures found.Some? ==> found.value in ps && Takes(found.value, e, k)
  {
    if ps == [] then None
    else if Takes(ps[|ps| - 1], e, k) then Some(ps[|ps| - 1])
    else LastTaker(ps[..|ps| - 1], e, k)
  }

  /** The mark after the event: the price of the last taker, or what it was. */
  ghost predicate MarkFollows(before: real, found: Option<Position>, e: MarketEvent, after: real) {
    if found.None? then after == before else MarkedAt(e, found.value.side, after)
  }

  lemma TakesIff(p: Position, e: MarketEvent, k: Key)
    ensures Takes(p, e, k) <==> p.IsOpen() && 0.0 < e.Mark(p.side) && Key(p.account, p.instrument) == k
    ensures forall price :: MarkedAt(e, p.side, price) <==> 0.0 < price == e.Mark(p.side)
  {
    if 0.0 < e.Mark(p.side) { assert MarkedAt(e, p.side, e.Mark(p.side)); }
  }

  /** After a market event the mark of an instrument is the price its last open position was given; an instrument
      without one keeps its mark. Nothing else but memos changes. */
  lemma {:induction false} EventMarks(l: Ledger, ps: seq<Position>, e: MarketEvent, k: Key)
    ensures var t := MarkPositions(l, ps, e);
            t == l.(marks := t.marks, memo := t.memo) && MarkFollows(l.MarkAt(k), LastTaker(ps, e, k), e, t.MarkAt(k))
  {
    if ps != [] {
      EventMarks(l, ps[..|ps| - 1], e, k);
      TakesIff(ps[|ps| - 1], e, k);
    }
  }

  lemma EventMarksAll(l: Ledger, ps: seq<Position>, e: MarketEvent)
    ensures forall k :: MarkFollows(l.MarkAt(k), LastTaker(ps, e, k), e, MarkPositions(l, ps, e).MarkAt(k))
  {
    forall k ensures MarkFollows(l.MarkAt(k), LastTaker(ps, e, k), e, MarkPositions(l, ps, e).MarkAt(k)) {
      EventMarks(l, ps, e, k);
    }
  }

  /** A fill that the balances take marks its instrument at its price, a position without a positive mark at its entry,
      and an explicit mark as told; no other call moves a mark, and none moves the mark of another instrument. */
  lemma CallMarks(l: Ledger, c: Call, k: Key)
    requires !c.Market?
    ensures Perform(l, c).ledger.MarkAt(k) ==
              match c
              case FillCall(f, funded) =>
                if f.Valid() && KeyOf(f) !in l.applied && funded && NextOf(l, f).Valid()
                   && k == Key(f.account, f.instrument) then f.price else l.MarkAt(k)
              case FillWithPosition(f, _, p, funded) =>
                if f.Valid() && KeyOf(f) !in l.applied && funded && p.Valid() && k == Key(f.account, f.instrument)
                then f.price else l.MarkAt(k)
              case PositionCall(p) =>
                if p.Valid() && k == Key(p.account, p.instrument) && 0.0 < p.entry && l.MarkAt(k) <= 0.0 then p.entry
                else l.MarkAt(k)
              case MarkCall(j, price) => if k == j then price else l.MarkAt(k)
              case _ => l.MarkAt(k)
  {
    match c
    case FillCall(f, funded) =>
      if f.Valid() { AccountMarks(l, Sided(f), l.ByInstrument(Venue(f)), NextOf(l, f), funded, k); }
    case FillWithPosition(f, previous, p, funded) =>
      if f.Valid() { AccountMarks(l, Sided(f), previous, p, funded, k); }
    case _ =>
  }

  lemma AccountMarks(l: Ledger, f: Fill, previous: Option<Position>, p: Position, funded: bool, k: Key)
    ensures Account(l, f, previous, p, funded).ledger.MarkAt(k) ==
              if KeyOf(f) !in l.applied && funded && p.Valid() && k == Venue(f) then f.price else l.MarkAt(k)
  {
  }

  lemma AccountRealizes(l: Ledger, f: Fill, previous: Option<Position>, p: Position, funded: bool, k: Key)
    ensures Account(l, f, previous, p, funded).ledger.RealizedAt(k) ==
              l.RealizedAt(k) + if KeyOf(f) !in l.applied && k == Venue(f) then RealizedDelta(previous, f) else 0.0
  {
  }

  // ----- What a fill does to the positions -----

  /** How much a fill adds to the position it belongs to: a sell takes away, anything else adds. */
  function Delivered(f: Fill): real {
    if f.side == Sell then -f.quantity else f.quantity
  }

  /** The position a fill belongs to: the one it names, or the netting position of its instrument. */
  predicate BelongsTo(f: Fill, k: Key) {
    k.account == f.account && (if f.position == NO_ID then k.id == f.instrument else k.id == f.position)
  }

  /** The position that a fill makes of the one it belongs to: as much more as it delivers, in its own instrument. */
  lemma NextDelivers(previous: Option<Position>, f: Fill, k: Key, next: Position)
    requires f.Valid() && BelongsTo(f, k) && WellFormed(previous)
    requires next == NextPosition(previous, Sided(f), PositionId(f), Exactly)
    ensures next.Valid() && next.At() == k && next.instrument == f.instrument && next.timestamp == f.timestamp
    ensures Net(Some(next)) == Net(previous) + Delivered(f)
  {
    ExactlyRounds();
    NextWellFormed(previous, Sided(f), PositionId(f), Exactly, 0.0);
  }

  /** A new fill moves exactly the position it belongs to, by what it delivers, and makes it the position of its
      instrument. */
  lemma FillMoves(l: Ledger, f: Fill, funded: bool, k: Key, t: Ledger)
    requires f.Valid() && KeyOf(f) !in l.applied && BelongsTo(f, k) && WellFormed(l.PositionAt(k))
    requires t == Perform(l, FillCall(f, funded)).ledger
    ensures t.PositionAt(k).Some? && Net(t.PositionAt(k)) == Net(l.PositionAt(k)) + Delivered(f)
    ensures t.PositionAt(k).value.instrument == f.instrument && t.PositionAt(k).value.timestamp == f.timestamp
    ensures t.ByInstrument(Key(f.account, f.instrument)) == t.PositionAt(k)
    ensures forall j :: j != k ==> t.PositionAt(j) == l.PositionAt(j)
  {
    var next := NextPosition(l.PositionAt(k), Sided(f), PositionId(f), Exactly);
    NextDelivers(l.PositionAt(k), f, k, next);
    AccountMoves(l, Sided(f), l.ByInstrument(Venue(f)), next, funded, t);
  }

  /** Its profit, reckoned against the position of its instrument, goes to its own account and instrument. */
  lemma FillRealizes(l: Ledger, f: Fill, funded: bool, k: Key, t: Ledger)
    requires f.Valid() && KeyOf(f) !in l.applied && t == Perform(l, FillCall(f, funded)).ledger
    ensures t.RealizedAt(k) == l.RealizedAt(k) + if k != Key(f.account, f.instrument) then 0.0
              else RealizedDelta(l.ByInstrument(k), Sided(f))
  {
    AccountRealizes(l, Sided(f), l.ByInstrument(Venue(f)), NextOf(l, f), funded, k);
  }

  lemma AccountMoves(l: Ledger, f: Fill, previous: Option<Position>, p: Position, funded: bool, t: Ledger)
    requires KeyOf(f) !in l.applied && p.Valid() && t == Account(l, f, previous, p, funded).ledger
    ensures t.positions == l.positions[p.At() := p] && t.ByInstrument(Key(p.account, p.instrument)) == Some(p)
  {
  }

  /** A fill is accounted for once: the same account, order and trade again change nothing, and nothing else is taken
      for the same fill. */
  lemma FillOnce(l: Ledger, f: Fill, g: Fill, funded: bool)
    requires f.Valid() && g.Valid()
    ensures var t := Perform(l, FillCall(f, funded)).ledger;
            && (KeyOf(g) in t.applied <==>
                  KeyOf(g) in l.applied || (g.account == f.account && g.order == f.order && g.trade == f.trade))
            && (KeyOf(f) in l.applied ==> t == l && Perform(l, FillCall(f, funded)).ok)
  {
  }

  // ----- When a fill is harmless -----

  /** The mark at which a fill moves no unrealized profit: its price if it adds to the position, the entry if it takes
      away. */
  predicate BreaksEven(previous: Option<Position>, f: Fill, mark: real) {
    if previous.None? || !previous.value.IsOpen() || SameDirection(previous.value, f) then mark == f.price
    else
      var p := previous.value;
      if f.quantity <= p.quantity then mark == p.entry
      else p.quantity * (mark - p.entry) + (f.quantity - p.quantity) * (mark - f.price) == 0.0
  }

  /** A fill moves unrealized profit by its own gain at the mark, less what it realizes. */
  lemma UnrealizedMoves(previous: Option<Position>, f: Fill, id: Id, mark: real)
    requires WellFormed(previous) && Proper(f) && 0.0 < mark
    ensures Unrealized(Some(NextPosition(previous, f, id, Exactly)), mark) - Unrealized(previous, mark)
         == Gain(f, mark) - RealizedDelta(previous, f)
  {
    ExactlyRounds();
    NextWellFormed(previous, f, id, Exactly, 0.0);
    CostMoves(previous, f, id);
    UnrealizedMovesTo(previous, Some(NextPosition(previous, f, id, Exactly)), f, mark, RealizedDelta(previous, f));
  }

  lemma UnrealizedMovesTo(previous: Option<Position>, next: Option<Position>, f: Fill, mark: real, delta: real)
    requires WellFormed(previous) && WellFormed(next) && 0.0 < mark
    requires Net(next) == Net(previous) + FillSigned(f)
                 && Cost(next) == delta + FillSigned(f) * f.price + Cost(previous)
    ensures Unrealized(next, mark) - Unrealized(previous, mark) == Gain(f, mark) - delta
  {
    UnrealizedIsGain(previous, mark);
    UnrealizedIsGain(next, mark);
    Balances(Net(previous), FillSigned(f), Net(next), mark, f.price, Cost(previous), Cost(next), delta,
             Unrealized(previous, mark), Unrealized(next, mark), Gain(f, mark));
  }

  lemma Balances(net: real, x: real, net': real, mark: real, price: real, cost: real, cost': real, delta: real,
                 worth: real, worth': real, gain: real)
    requires net' == net + x && cost' == delta + x * price + cost && gain == x * (mark - price)
    requires worth == net * mark - cost && worth' == net' * mark - cost'
    ensures worth' - worth == gain - delta
  {
    assert net' * mark == net * mark + x * mark;
    assert x * (mark - price) == x * mark - x * price;
  }

  lemma CostMoves(previous: Option<Position>, f: Fill, id: Id)
    requires WellFormed(previous) && Proper(f)
    ensures Cost(Some(NextPosition(previous, f, id, Exactly))) ==
                RealizedDelta(previous, f) + FillSigned(f) * f.price + Cost(previous)
  {
    NothingChanges(previous, f, id);
  }

  function Gain(f: Fill, mark: real): real {
    FillSigned(f) * (mark - f.price)
  }

  lemma NothingChanges(previous: Option<Position>, f: Fill, id: Id)
    requires WellFormed(previous) && Proper(f)
    ensures Change(previous, f, id, Exactly) == 0.0
  {
    ExactlyRounds();
    ChangeBounded(previous, Net(previous), f, id, Exactly, 0.0);
    assert 0.0 * AveragedSize(Net(previous), f) == 0.0;
  }

  lemma GainVanishes(f: Fill, mark: real)
    requires Proper(f)
    ensures Gain(f, mark) == 0.0 <==> mark == f.price
  {
    if mark != f.price { assert f.quantity * (mark - f.price) != 0.0; }
  }

  lemma ReducingGain(q: real, x: real, mark: real, price: real, entry: real)
    requires 0.0 < x
    ensures x <= q ==> (x * (mark - price) == x * (entry - price) <==> mark == entry)
    ensures x * (mark - price) - q * (entry - price) == q * (mark - entry) + (x - q) * (mark - price)
  {
    if mark != entry { assert x * (mark - entry) != 0.0; }
    assert x * (mark - price) - x * (entry - price) == x * (mark - entry);
  }

  /** The fill moves no unrealized profit exactly when the mark stands where `BreaksEven` says. */
  lemma BreaksEvenIff(previous: Option<Position>, f: Fill, mark: real)
    requires WellFormed(previous) && Proper(f)
    ensures Gain(f, mark) == RealizedDelta(previous, f) <==> BreaksEven(previous, f, mark)
  {
    if previous.Some? && previous.value.IsOpen() && !SameDirection(previous.value, f) {
      var p := previous.value;
      if p.side.Short? {
        ReducesEven(p.quantity, f.quantity, mark, f.price, p.entry, Gain(f, mark), RealizedDelta(previous, f));
      } else {
        Negates(f.quantity, mark - f.price, f.price - p.entry, Min(p.quantity, f.quantity));
        ReducesEven(p.quantity, f.quantity, mark, f.price, p.entry, -Gain(f, mark), -RealizedDelta(previous, f));
      }
    } else {
      GainVanishes(f, mark);
    }
  }

  lemma Negates(x: real, d: real, e: real, m: real)
    ensures -((-x) * d) == x * d && -(e * m) == (-e) * m
  {
  }

  /** A reducing fill, seen from a short position. */
  lemma ReducesEven(q: real, x: real, mark: real, price: real, entry: real, gain: real, delta: real)
    requires 0.0 < q && 0.0 < x && gain == x * (mark - price) && delta == (entry - price) * Min(q, x)
    ensures gain == delta <==>
              if x <= q then mark == entry else q * (mark - entry) + (x - q) * (mark - price) == 0.0
  {
    ReducingGain(q, x, mark, price, entry);
    assert (entry - price) * Min(q, x) == Min(q, x) * (entry - price);
  }

  /** An unfunded fill leaves a stale memo unless there is none, or no mark, or the mark is where the fill breaks
      even. */
  lemma UnfundedFillIff(l: Ledger, fill: Fill)
    requires Coherent(l) && IsNew(l, fill) && NextOf(l, fill).Valid() && KeepsInstrument(l, FillCall(fill, false))
    requires l.ByInstrument(Venue(fill)) == l.PositionAt(Key(fill.account, PositionId(fill)))
    requires WellFormed(l.ByInstrument(Venue(fill)))
    ensures Coherent(Perform(l, FillCall(fill, false)).ledger) <==>
              var k := Venue(fill);
              k !in l.memo || l.MarkAt(k) <= 0.0 || BreaksEven(l.ByInstrument(k), Sided(fill), l.MarkAt(k))
  {
    var f, k := Sided(fill), Venue(fill);
    PerformCoherentIff(l, FillCall(fill, false));
    if 0.0 < l.MarkAt(k) {
      UnrealizedMoves(l.ByInstrument(k), f, PositionId(f), l.MarkAt(k));
      BreaksEvenIff(l.ByInstrument(k), f, l.MarkAt(k));
    }
  }

  // ----- Two runs that leave a stale memo -----

  lemma PerformOne(calls: seq<Call>, c: Call)
    requires AllKeep(EMPTY, calls) && KeepsInstrument(PerformAll(EMPTY, calls), c)
    ensures AllKeep(EMPTY, calls + [c]) && PerformAll(EMPTY, calls + [c]) == Perform(PerformAll(EMPTY, calls), c).ledger
  {
    assert (calls + [c])[..|calls|] == calls;
  }

  /** A position of one bought at one, marked at three, with its profit of two memoised. */
  function Memoised(instrument: Id): Ledger {
    var k := Key(1, instrument);
    Ledger(map[k := Position(1, instrument, instrument, 0, Long, 1.0, 1.0, 0)], map[k := instrument],
           map[k := 3.0], map[], map[k := 2.0], {})
  }

  lemma ReachesMemoised(instrument: Id) returns (calls: seq<Call>)
    requires instrument != NO_ID
    ensures AllKeep(EMPTY, calls) && PerformAll(EMPTY, calls) == Memoised(instrument)
  {
    var p, k := Position(1, instrument, instrument, 0, Long, 1.0, 1.0, 0), Key(1, instrument);
    calls := [];
    PerformOne(calls, PositionCall(p));
    calls := calls + [PositionCall(p)];
    PerformOne(calls, MarkCall(k, 3.0));
    calls := calls + [MarkCall(k, 3.0)];
    assert PerformAll(EMPTY, calls) == Memoised(instrument).(memo := map[]);
    PerformOne(calls, QueryCall(k));
    calls := calls + [QueryCall(k)];
    assert PerformAll(EMPTY, calls) == Memoised(instrument);
  }

  lemma MemoisedCoherent(instrument: Id)
    ensures Coherent(Memoised(instrument)) && Memoised(instrument).ByInstrument(Key(1, instrument)).Some?
    ensures Memoised(instrument).Recomputed(Key(1, instrument)) == 2.0
  {
  }

  /** A fill the balances cannot take: the position doubles and the memo does not. */
  lemma UnfundedFillGoesStale()
    ensures exists calls, f :: AllKeep(EMPTY, calls + [FillCall(f, false)]) && Coherent(PerformAll(EMPTY, calls))
                               && !Coherent(PerformAll(EMPTY, calls + [FillCall(f, false)]))
  {
    var calls := ReachesMemoised(1);
    var f := Fill(1, 1, 1, 0, 0, 1, 0, false, Buy, 1.0, 1.0, 1.0, 0);
    MemoisedCoherent(1);
    var l := Memoised(1);
    assert NextOf(l, f).quantity == 2.0 && NextOf(l, f).Valid();
    UnfundedFillIff(l, f);
    PerformOne(calls, FillCall(f, false));
  }

  /** A fill in one instrument given a position in another: the call succeeds, and the other instrument's memo stays. */
  lemma ForeignPositionGoesStale()
    ensures exists calls, c: Call :: c.FillWithPosition? && AllKeep(EMPTY, calls + [c])
              && Coherent(PerformAll(EMPTY, calls)) && Perform(PerformAll(EMPTY, calls), c).ok
              && !Coherent(PerformAll(EMPTY, calls + [c]))
  {
    var calls := ReachesMemoised(2);
    var f := Fill(1, 1, 1, 0, 0, 1, 0, false, Buy, 1.0, 1.0, 1.0, 0);
    var p := Position(1, 2, 2, 0, Long, 5.0, 1.0, 0);
    var c := FillWithPosition(f, None, p, true);
    MemoisedCoherent(2);
    assert Unrealized(Some(p), 3.0) == 10.0;
    PerformCoherentIff(Memoised(2), c);
    PerformOne(calls, c);
  }

  /** `ps` lists the positions in an instrument once each, by account and then position id. */
  ghost predicate Lists(ps: seq<Position>, positions: map<Key, Position>, instrument: Id) {
    && (forall p :: p in ps <==> p.At() in positions && positions[p.At()] == p && p.instrument == instrument)
    && (forall i, j :: 0 <= i < j < |ps| ==> Less(Rank(ps[i].account, ps[i].id), Rank(ps[j].account, ps[j].id)))
  }

  method PositionsForInstrument(positions: map<Key, Position>, instrument: Id) returns (ps: seq<Position>)
    requires forall k :: k in positions ==> positions[k].At() == k
    ensures Lists(ps, positions, instrument)
  {
    var found := set k | k in positions && positions[k].instrument == instrument;
    var ranks := Sort(set k | k in found :: Rank(k.account, k.id));
    ps := [];
    for i := 0 to |ranks|
      invariant |ps| == i
      invariant forall j :: 0 <= j < i ==>
                    ps[j].At() in found && positions[ps[j].At()] == ps[j] && Rank(ps[j].account, ps[j].id) == ranks[j]
    {
      assert ranks[i] in ranks;
      ps := ps + [positions[Key(ranks[i].major, ranks[i].id)]];
    }
    forall p: Position | p.At() in found && positions[p.At()] == p ensures p in ps {
      assert Rank(p.account, p.id) in ranks;
      var j :| 0 <= j < |ranks| && ranks[j] == Rank(p.account, p.id);
      assert ps[j] == p;
    }
  }

  /** The portfolio as an object: each method performs one `Call`, and says when that keeps the memo coherent. */
  class Portfolio {
    var ledger: Ledger

    /** Positions are filed under their own id. */
    ghost predicate Valid()
      reads this
    {
      forall k :: k in ledger.positions ==> ledger.positions[k].At() == k
    }

    constructor ()
      ensures Valid() && ledger == EMPTY && Coherent(ledger)
    {
      ledger := EMPTY;
    }

    method ApplyFill(fill: Fill, funded: bool) returns (ok: bool)
      requires Valid()
      modifies this
      ensures Valid()
      ensures Posted(ledger, ok) == Perform(old(ledger), FillCall(fill, funded))
      ensures old(Coherent(ledger)) && KeepsInstrument(old(ledger), FillCall(fill, funded)) ==>
                (Coherent(ledger) <==> Harmless(old(ledger), FillCall(fill, funded)))
    {
      if Coherent(ledger) && KeepsInstrument(ledger, FillCall(fill, funded)) {
        PerformCoherentIff(ledger, FillCall(fill, funded)); }
      if !fill.Valid() { return false; }
      var f := Sided(fill);
      var previous := ledger.ByInstrument(Venue(f));
      var next := NextPosition(ledger.PositionAt(Key(f.account, PositionId(f))), f, PositionId(f), Exactly);
      ok := ApplyFillAccounting(f, previous, next, funded);
    }

    method ApplyFillWithPosition(fill: Fill, previous: Option<Position>, next: Position, funded: bool)
        returns (ok: bool)
      requires Valid()
      modifies this
      ensures Valid()
      ensures Posted(ledger, ok) == Perform(old(ledger), FillWithPosition(fill, previous, next, funded))
      ensures old(Coherent(ledger)) && KeepsInstrument(old(ledger), FillWithPosition(fill, previous, next, funded)) ==>
                (Coherent(ledger) <==> Harmless(old(ledger), FillWithPosition(fill, previous, next, funded)))
    {
      ghost var c := FillWithPosition(fill, previous, next, funded);
      if Coherent(ledger) && KeepsInstrument(ledger, c) { PerformCoherentIff(ledger, c); }
      if !fill.Valid() { return false; }
      ok := ApplyFillAccounting(Sided(fill), previous, next, funded);
    }

    method ApplyFillAccounting(f: Fill, previous: Option<Position>, next: Position, funded: bool) returns (ok: bool)
      requires Valid()
      modifies this
      ensures Valid()
      ensures Posted(ledger, ok) == Account(old(ledger), f, previous, next, funded)
    {
      if KeyOf(f) in ledger.applied { return true; }
      ledger := ledger.(applied := ledger.applied + {KeyOf(f)});
      var delta := RealizedDelta(previous, f);
      if delta != 0.0 {
        ledger := ledger.(realized := ledger.realized[Venue(f) := ledger.RealizedAt(Venue(f)) + delta]);
      }
      if !next.Valid() { return false; }
      ledger := ledger.WithPosition(next);
      if !funded { return false; }
      ledger := ledger.SetMark(Venue(f), f.price);
      ok := true;
    }

    method PutPosition(p: Position) returns (ok: bool)
      requires Valid()
      modifies this
      ensures Valid()
      ensures Posted(ledger, ok) == Perform(old(ledger), PositionCall(p))
      ensures old(Coherent(ledger)) && SameInstrument(old(ledger), p) ==> Coherent(ledger)
    {
      if Coherent(ledger) && SameInstrument(ledger, p) { PutPositionCoherent(ledger, p); }
      if !p.Valid() { return false; }
      var k := Key(p.account, p.instrument);
      ledger := ledger.WithPosition(p).Forget(k);
      if 0.0 < p.entry && !(k in ledger.marks && 0.0 < ledger.marks[k]) {
        ledger := ledger.SetMark(k, p.entry);
      }
      ok := true;
    }

    /** `valid` is the outcome of the checks on the event. */
    method ApplyMarketEvent(instrument: Id, e: MarketEvent, valid: bool) returns (ok: bool, ghost ps: seq<Position>)
      requires Valid()
      modifies this
      ensures Valid()
      ensures ok == valid && (!ok ==> ledger == old(ledger))
      ensures ok ==> Lists(ps, old(ledger).positions, instrument)
      ensures ok ==> ledger == Perform(old(ledger), Market(ps, e)).ledger
      ensures ok ==> forall k :: MarkFollows(old(ledger).MarkAt(k), LastTaker(ps, e, k), e, ledger.MarkAt(k))
      ensures old(Coherent(ledger)) ==> Coherent(ledger)
    {
      ok, ps := valid, [];
      if !ok { return; }
      var listed := PositionsForInstrument(ledger.positions, instrument);
      EventMarksAll(ledger, listed, e);
      MarkListed(listed, e);
      ps := listed;
    }

    method MarkListed(listed: seq<Position>, e: MarketEvent)
      requires Valid()
      modifies this
      ensures Valid() && ledger == MarkPositions(old(ledger), listed, e)
      ensures old(Coherent(ledger)) ==> Coherent(ledger)
    {
      for i := 0 to |listed|
        invariant Valid()
        invariant ledger == MarkPositions(old(ledger), listed[..i], e)
        invariant old(Coherent(ledger)) ==> Coherent(ledger)
      {
        var p := listed[i];
        assert listed[..i + 1][..i] == listed[..i];
        if p.IsOpen() && 0.0 < e.Mark(p.side) {
          if Coherent(ledger) { SetMarkCoherent(ledger, Key(p.account, p.instrument), e.Mark(p.side)); }
          ledger := ledger.SetMark(Key(p.account, p.instrument), e.Mark(p.side));
        }
      }
      assert listed[..|listed|] == listed;
    }

    method UnrealizedPnL(k: Key) returns (value: real)
      requires Valid()
      modifies this
      ensures Valid()
      ensures ledger == Perform(old(ledger), QueryCall(k)).ledger && k in ledger.memo && value == ledger.memo[k]
      ensures old(Coherent(ledger)) ==> Coherent(ledger) && value == old(ledger).Recomputed(k)
    {
      if Coherent(ledger) { PerformCoherentIff(ledger, QueryCall(k)); }
      if k !in ledger.memo {
        ledger := ledger.(memo := ledger.memo[k := ledger.Recomputed(k)]);
      }
      value := ledger.memo[k];
    }
  }
}
