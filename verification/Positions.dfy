/**
 The netting position reducer of the portfolio, its realized and unrealized profit, and the backtest's own reducer.
 */
module Positions {
  import opened Model

  /** The decimal library's division: exact, or rounded. */
  type Division = (real, real) -> real

  function Exactly(x: real, y: real): real {
    if y == 0.0 then 0.0 else x / y
  }

  ghost predicate Rounds(div: Division, eps: real) {
    forall x, y :: 0.0 <= x && 0.0 < y ==> 0.0 <= div(x, y) && Abs(div(x, y) - x / y) <= eps
  }

  function Signed(p: Position): real {
    if p.side.Short? then -p.quantity else p.quantity
  }

  function FillSigned(f: Fill): real {
    if f.side.Sell? then -f.quantity else f.quantity
  }

  function SideFromSigned(x: real): PositionSide {
    if 0.0 < x then Long else if x < 0.0 then Short else Flat
  }

  predicate SameDirection(p: Position, f: Fill) {
    (p.side.Long? && f.side.Buy?) || (p.side.Short? && f.side.Sell?)
  }

  function Notional(p: Position, f: Fill): real {
    p.entry * p.quantity + f.price * f.quantity
  }

  /** The portfolio's position after a fill. */
  function NextPosition(existing: Option<Position>, f: Fill, id: Id, div: Division): Position {
    match existing
    case None =>
      Position(f.account, f.instrument, id, NO_ID, SideFromSigned(FillSigned(f)), f.quantity, f.price, f.timestamp)
    case Some(p) =>
      var signed := Signed(p) + FillSigned(f);
      var total := p.quantity + f.quantity;
      var entry :=
        if SameDirection(p, f) then
          if 0.0 < total then div(Notional(p, f), total) else f.price
        else if f.quantity < p.quantity then p.entry
        else f.price;
      var side := SideFromSigned(signed);
      Position(f.account, f.instrument, id, NO_ID, side, Abs(signed), if side.Flat? then 0.0 else entry, f.timestamp)
  }

  function RealizedDelta(previous: Option<Position>, f: Fill): real {
    match previous
    case None => 0.0
    case Some(p) =>
      if p.side.Flat? || p.quantity == 0.0 || SameDirection(p, f) || Min(p.quantity, f.quantity) <= 0.0 then 0.0
      else if p.side.Short? then (p.entry - f.price) * Min(p.quantity, f.quantity)
      else (f.price - p.entry) * Min(p.quantity, f.quantity)
  }

  function Unrealized(position: Option<Position>, mark: real): real {
    if position.None? || !position.value.IsOpen() || mark <= 0.0 then 0.0
    else
      var p := position.value;
      if p.side.Short? then (p.entry - mark) * p.quantity else (mark - p.entry) * p.quantity
  }

  /** The backtest's position after a fill. */
  function RunnerPosition(existing: Option<Position>, f: Fill): Position {
    match existing
    case None =>
      Position(f.account, f.instrument, f.instrument, NO_ID, if f.side.Sell? then Short
        else Long, f.quantity, f.price, f.timestamp)
    case Some(p) =>
      var current, signed := Signed(p), FillSigned(f);
      var quantity := Abs(current + signed);
      var entry :=
        if ((0.0 < current && 0.0 < signed) || (current < 0.0 && signed < 0.0)) && 0.0 < quantity then
          Notional(p, f) / quantity
        else if Abs(signed) < Abs(current) then p.entry
        else f.price;
      Position(f.account, f.instrument, f.instrument, NO_ID, SideFromSigned(current + signed), quantity, entry,
        f.timestamp)
  }

  // ----- One fill -----

  /** Positions that fills give rise to: flat exactly when empty. */
  ghost predicate WellFormed(position: Option<Position>) {
    position.Some? ==>
      var p := position.value;
      0.0 <= p.quantity && 0.0 <= p.entry && p.side == SideFromSigned(Signed(p))
  }

  ghost function Net(position: Option<Position>): real {
    if position.None? then 0.0 else Signed(position.value)
  }

  /** What the position cost, at its entry price. */
  ghost function Cost(position: Option<Position>): real {
    if position.None? then 0.0 else Signed(position.value) * position.value.entry
  }

  /** The money a fill moves: paid for a buy, received (negative) for a sell. */
  ghost function Paid(f: Fill): real {
    FillSigned(f) * f.price
  }

  predicate Proper(f: Fill) {
    f.Valid() && !f.side.NoSide?
  }

  /** The size of the position when a fill in its own direction is averaged into it. */
  ghost function AveragedSize(net: real, f: Fill): real {
    if (0.0 < net && f.side.Buy?) || (net < 0.0 && f.side.Sell?) then Abs(net + FillSigned(f)) else 0.0
  }

  lemma NextWellFormed(existing: Option<Position>, f: Fill, id: Id, div: Division, eps: real)
    requires WellFormed(existing) && Proper(f) && Rounds(div, eps)
    ensures WellFormed(Some(NextPosition(existing, f, id, div)))
    ensures Net(Some(NextPosition(existing, f, id, div))) == Net(existing) + FillSigned(f)
  {
    if existing.Some? {
      var p := existing.value;
      NotionalPositive(p, f);
    }
  }

  /** What one fill does to profit minus cost plus money moved. */
  ghost function Change(existing: Option<Position>, f: Fill, id: Id, div: Division): real {
    RealizedDelta(existing, f) - Cost(Some(NextPosition(existing, f, id, div))) + Paid(f) + Cost(existing)
  }

  /** A fill that does not average leaves profit minus cost plus money moved exactly as it was. */
  lemma FlatOrClosing(existing: Option<Position>, f: Fill, id: Id, div: Division)
    requires WellFormed(existing) && Proper(f) && (existing.None? || !SameDirection(existing.value, f))
    ensures Change(existing, f, id, div) == 0.0 && AveragedSize(Net(existing), f) == 0.0
  {
    if existing.Some? {
      var p, next := existing.value, NextPosition(existing, f, id, div);
      assert next.quantity == Abs(Signed(p) + FillSigned(f));
      if p.side.Long? {
        assert RealizedDelta(existing, f) == (f.price - p.entry) * Min(p.quantity, f.quantity);
      } else if p.side.Short? {
        assert RealizedDelta(existing, f) == (p.entry - f.price) * Min(p.quantity, f.quantity);
      }
    }
  }

  lemma MulQuotient(x: real, y: real)
    requires y != 0.0
    ensures y * (x / y) == x
  {
  }

  lemma ScaledError(size: real, d: real, exact: real, eps: real)
    requires 0.0 <= size && Abs(d - exact) <= eps
    ensures Abs(size * d - size * exact) <= eps * size
  {
    assert size * d - size * exact == size * (d - exact);
    if d < exact {
      assert size * (exact - d) <= size * eps;
    } else {
      assert size * (d - exact) <= size * eps;
    }
  }

  lemma AveragedNext(p: Position, f: Fill, id: Id, div: Division)
    requires WellFormed(Some(p)) && Proper(f) && SameDirection(p, f)
    ensures var next := NextPosition(Some(p), f, id, div);
            && next.side == p.side && next.quantity == p.quantity + f.quantity
            && next.entry == div(Notional(p, f), p.quantity + f.quantity)
    ensures RealizedDelta(Some(p), f) == 0.0 && AveragedSize(Signed(p), f) == p.quantity + f.quantity
  {
  }

  lemma NotionalPositive(p: Position, f: Fill)
    requires 0.0 <= p.quantity && 0.0 <= p.entry && 0.0 <= f.price && 0.0 <= f.quantity
    ensures 0.0 <= Notional(p, f)
  {
    assert 0.0 <= p.entry * p.quantity && 0.0 <= f.price * f.quantity;
  }

  lemma AveragedCost(p: Position, f: Fill, entry: real)
    requires SameDirection(p, f)
    ensures var signed := if p.side.Short? then -(p.quantity + f.quantity) else p.quantity + f.quantity;
            Abs(-(signed * entry) + Paid(f) + Cost(Some(p))) == Abs((p.quantity + f.quantity) * entry - Notional(p, f))
  {
    if p.side.Short? {
      assert -(p.quantity + f.quantity) * entry == -((p.quantity + f.quantity) * entry);
    }
  }

  /** Averaging adds at most the rounding of the division, scaled by the new size of the position. */
  lemma AveragingError(p: Position, f: Fill, div: Division, eps: real, change: real, size: real)
    requires 0.0 <= p.quantity && 0.0 <= p.entry && 0.0 <= f.price && 0.0 < f.quantity && Rounds(div, eps)
    requires size == p.quantity + f.quantity && Abs(change) == Abs(Excess(p, f, size, div))
    ensures Abs(change) <= eps * size
  {
    NotionalPositive(p, f);
    RoundedError(Notional(p, f), size, div(Notional(p, f), size), eps);
  }

  lemma AveragedChange(p: Position, net: real, f: Fill, id: Id, div: Division)
    requires WellFormed(Some(p)) && Proper(f) && SameDirection(p, f) && net == Signed(p)
    ensures AveragedSize(net, f) == p.quantity + f.quantity
    ensures Abs(Change(Some(p), f, id, div)) == Abs(Excess(p, f, AveragedSize(net, f), div))
  {
    AveragedNext(p, f, id, div);
    AveragedCost(p, f, div(Notional(p, f), p.quantity + f.quantity));
  }

  /** What a position of the given size is valued at after averaging, beyond what was paid for it. */
  ghost function Excess(p: Position, f: Fill, size: real, div: Division): real {
    size * div(Notional(p, f), size) - Notional(p, f)
  }

  lemma RoundedError(n: real, total: real, quotient: real, eps: real)
    requires 0.0 < total && Abs(quotient - n / total) <= eps
    ensures Abs(total * quotient - n) <= eps * total
  {
    MulQuotient(n, total);
    ScaledError(total, quotient, n / total, eps);
  }

  // ----- Any run of fills of one instrument -----

  datatype Holding = Holding(position: Option<Position>, realized: real)

  function Hold(h: seq<Fill>, div: Division): Holding {
    if h == [] then Holding(None, 0.0)
    else
      var b, f := Hold(h[..|h| - 1], div), h[|h| - 1];
      Holding(Some(NextPosition(b.position, f, f.instrument, div)), b.realized + RealizedDelta(b.position, f))
  }

  function RunnerHold(h: seq<Fill>): Option<Position> {
    if h == [] then None else Some(RunnerPosition(RunnerHold(h[..|h| - 1]), h[|h| - 1]))
  }

  ghost predicate AllProper(h: seq<Fill>) {
    forall i :: 0 <= i < |h| ==> Proper(h[i])
  }

  ghost function NetOf(h: seq<Fill>): real {
    if h == [] then 0.0 else NetOf(h[..|h| - 1]) + FillSigned(h[|h| - 1])
  }

  ghost function PaidOf(h: seq<Fill>): real {
    if h == [] then 0.0 else PaidOf(h[..|h| - 1]) + Paid(h[|h| - 1])
  }

  /** The position sizes at the fills that were averaged into the position, added up. */
  ghost function Averaged(h: seq<Fill>): real {
    if h == [] then 0.0 else Averaged(h[..|h| - 1]) + AveragedSize(NetOf(h[..|h| - 1]), h[|h| - 1])
  }

  lemma {:induction false} HoldingNet(h: seq<Fill>, div: Division, eps: real)
    requires AllProper(h) && Rounds(div, eps)
    ensures WellFormed(Hold(h, div).position) && Net(Hold(h, div).position) == NetOf(h)
  {
    if h != [] {
      var b, f := Hold(h[..|h| - 1], div), h[|h| - 1];
      HoldingNet(h[..|h| - 1], div, eps);
      NextWellFormed(b.position, f, f.instrument, div, eps);
    }
  }

  /** How far profit minus cost is from the money that moved. */
  ghost function ResidualOf(b: Holding, h: seq<Fill>): real {
    b.realized - Cost(b.position) + PaidOf(h)
  }

  ghost function Residual(h: seq<Fill>, div: Division): real {
    ResidualOf(Hold(h, div), h)
  }

  function Profit(b: Holding, mark: real): real {
    b.realized + Unrealized(b.position, mark)
  }

  /** The residual moves by at most the rounding of one averaging, and not at all at any other fill. */
  lemma ResidualStep(h: seq<Fill>, div: Division, eps: real) returns (change: real)
    requires h != [] && AllProper(h) && Rounds(div, eps)
    ensures Residual(h, div) == Residual(h[..|h| - 1], div) + change
    ensures Abs(change) <= Tolerance(h, eps)
    ensures AveragedSize(NetOf(h[..|h| - 1]), h[|h| - 1]) == 0.0 ==> change == 0.0
  {
    change := LastChange(h, div);
    ResidualMoves(h, div);
    HoldingNet(h[..|h| - 1], div, eps);
    ChangeBounded(Hold(h[..|h| - 1], div).position, NetOf(h[..|h| - 1]), h[|h| - 1], h[|h| - 1].instrument, div, eps);
  }

  ghost function LastChange(h: seq<Fill>, div: Division): real
    requires h != []
  {
    Change(Hold(h[..|h| - 1], div).position, h[|h| - 1], h[|h| - 1].instrument, div)
  }

  lemma ResidualMoves(h: seq<Fill>, div: Division)
    requires h != []
    ensures Residual(h, div) == Residual(h[..|h| - 1], div) + LastChange(h, div)
  {
  }

  /** A fill changes profit minus cost plus money moved by at most the rounding times the averaged size, and not at all
      if it does not average. */
  lemma ChangeBounded(existing: Option<Position>, net: real, f: Fill, id: Id, div: Division, eps: real)
    requires WellFormed(existing) && Proper(f) && Rounds(div, eps) && net == Net(existing)
    ensures Abs(Change(existing, f, id, div)) <= eps * AveragedSize(net, f)
    ensures AveragedSize(net, f) == 0.0 ==> Change(existing, f, id, div) == 0.0
  {
    if existing.Some? && SameDirection(existing.value, f) {
      AveragedChange(existing.value, net, f, id, div);
      AveragingError(existing.value, f, div, eps, Change(existing, f, id, div), AveragedSize(net, f));
    } else {
      FlatOrClosing(existing, f, id, div);
      assert eps * 0.0 == 0.0;
    }
  }

  /** The rounding allowed at the last fill, and at all fills. */
  ghost function Tolerance(h: seq<Fill>, eps: real): real {
    if h == [] then 0.0 else eps * AveragedSize(NetOf(h[..|h| - 1]), h[|h| - 1])
  }

  ghost function Tolerances(h: seq<Fill>, eps: real): real {
    if h == [] then 0.0 else Tolerances(h[..|h| - 1], eps) + Tolerance(h, eps)
  }

  lemma {:induction false} TolerancesScale(h: seq<Fill>, eps: real)
    ensures Tolerances(h, eps) == eps * Averaged(h)
  {
    if h == [] {
      assert eps * 0.0 == 0.0;
    } else {
      TolerancesScale(h[..|h| - 1], eps);
    }
  }

  /** A quantity whose every change is bounded is bounded by the sum of the bounds. */
  lemma {:induction false} ChangesAddUp(r: seq<Fill> -> real, eps: real, h: seq<Fill>)
    requires r([]) == 0.0
    requires forall i :: 0 < i <= |h| ==> Abs(r(h[..i]) - r(h[..i - 1])) <= Tolerance(h[..i], eps)
    ensures Abs(r(h)) <= Tolerances(h, eps)
  {
    assert h[..|h|] == h;
    if h != [] {
      var before := h[..|h| - 1];
      assert forall i :: 0 <= i <= |before| ==> before[..i] == h[..i];
      ChangesAddUp(r, eps, before);
    }
  }

  /** Rounding drift: the residual is bounded by the rounding times the averaged position sizes. */
  lemma Drift(h: seq<Fill>, div: Division, eps: real)
    requires AllProper(h) && Rounds(div, eps)
    ensures Abs(Residual(h, div)) <= eps * Averaged(h)
  {
    var r := (g: seq<Fill>) => Residual(g, div);
    forall i | 0 < i <= |h| ensures Abs(r(h[..i]) - r(h[..i - 1])) <= Tolerance(h[..i], eps) {
      assert h[..i][..i - 1] == h[..i - 1];
      var _ := ResidualStep(h[..i], div, eps);
    }
    ChangesAddUp(r, eps, h);
    TolerancesScale(h, eps);
  }

  /** The same of any record of the holding that the fills give. */
  lemma DriftOf(b: Holding, h: seq<Fill>, div: Division, eps: real)
    requires AllProper(h) && Rounds(div, eps) && b == Hold(h, div)
    ensures Abs(ResidualOf(b, h)) <= eps * Averaged(h)
  {
    Drift(h, div, eps);
  }

  lemma ExactlyRounds()
    ensures Rounds(Exactly, 0.0)
  {
    forall x: real, y: real | 0.0 <= x && 0.0 < y ensures 0.0 <= Exactly(x, y) == x / y { QuotientNonNegative(x, y); }
  }

  lemma QuotientNonNegative(x: real, y: real)
    requires 0.0 <= x && 0.0 < y
    ensures 0.0 <= x / y
  {
  }

  /** With exact division nothing drifts. */
  lemma NoResidual(h: seq<Fill>)
    requires AllProper(h)
    ensures Residual(h, Exactly) == 0.0
  {
    ExactlyRounds();
    Drift(h, Exactly, 0.0);
    assert 0.0 * Averaged(h) == 0.0;
  }

  /** Mark-to-market identity: with exact division, profit is the money received plus the value of what is held. */
  lemma MarkToMarket(b: Holding, h: seq<Fill>, mark: real)
    requires AllProper(h) && b == Hold(h, Exactly)
    ensures ResidualOf(b, h) == 0.0
    ensures 0.0 < mark ==> Profit(b, mark) == NetOf(h) * mark - PaidOf(h)
  {
    NoResidual(h);
    ExactlyRounds();
    HoldingNet(h, Exactly, 0.0);
    if 0.0 < mark { ProfitIs(b, h, mark); }
  }

  lemma ProfitIs(b: Holding, h: seq<Fill>, mark: real)
    requires WellFormed(b.position) && 0.0 < mark && ResidualOf(b, h) == 0.0 && Net(b.position) == NetOf(h)
    ensures Profit(b, mark) == NetOf(h) * mark - PaidOf(h)
  {
    UnrealizedIsGain(b.position, mark);
  }

  lemma UnrealizedIsGain(position: Option<Position>, mark: real)
    requires WellFormed(position) && 0.0 < mark
    ensures Unrealized(position, mark) == Net(position) * mark - Cost(position)
  {
  }

  /** The backtest's position agrees with the portfolio's on side and size, and on entry while open. */
  ghost predicate Agree(p: Option<Position>, q: Option<Position>) {
    && p.Some? == q.Some?
    && (p.Some? ==> p.value.side == q.value.side && p.value.quantity == q.value.quantity
                    && (p.value.IsOpen() ==> p.value.entry == q.value.entry))
  }

  lemma ReducersStep(p: Option<Position>, q: Option<Position>, f: Fill)
    requires WellFormed(p) && Agree(p, q) && Proper(f)
    ensures Agree(Some(NextPosition(p, f, f.instrument, Exactly)), Some(RunnerPosition(q, f)))
  {
  }

  /** Two position reducers: on every run of fills they agree, and are flat exactly when they hold nothing. */
  lemma {:induction false} ReducersAgree(h: seq<Fill>)
    requires AllProper(h)
    ensures Agree(Hold(h, Exactly).position, RunnerHold(h))
    ensures h != [] ==> (RunnerHold(h).value.side.Flat? <==> RunnerHold(h).value.quantity == 0.0)
  {
    if h != [] {
      var before := h[..|h| - 1];
      ReducersAgree(before);
      ExactlyRounds();
      HoldingNet(before, Exactly, 0.0);
      HoldingNet(h, Exactly, 0.0);
      ReducersStep(Hold(before, Exactly).position, RunnerHold(before), h[|h| - 1]);
    }
  }

  /** The fills since the position was last opened or flipped. */
  ghost function Segment(h: seq<Fill>): seq<Fill> {
    if h == [] then []
    else
      var before, f := h[..|h| - 1], h[|h| - 1];
      if SideFromSigned(NetOf(before)) == SideFromSigned(NetOf(h)) then Segment(before) + [f] else [f]
  }

  lemma Between(lo: real, x: real, hi: real, q: real)
    requires 0.0 <= q && lo <= x <= hi
    ensures lo * q <= x * q <= hi * q
  {
  }

  lemma Spreads(x: real, a: real, b: real, total: real)
    requires total == a + b
    ensures x * total == x * a + x * b
  {
  }

  lemma NotionalBetween(p: Position, f: Fill, lo: real, hi: real, total: real)
    requires 0.0 <= p.quantity && 0.0 < f.quantity && lo <= p.entry <= hi && lo <= f.price <= hi
                 && total == p.quantity + f.quantity
    ensures lo * total <= Notional(p, f) <= hi * total
  {
    var q, r := p.quantity, f.quantity;
    Between(lo, p.entry, hi, q);
    Between(lo, f.price, hi, r);
    Spreads(lo, q, r, total);
    Spreads(hi, q, r, total);
  }

  lemma AverageBetween(p: Position, f: Fill, lo: real, hi: real)
    requires 0.0 <= p.quantity && 0.0 < f.quantity && lo <= p.entry <= hi && lo <= f.price <= hi
    ensures lo <= Notional(p, f) / (p.quantity + f.quantity) <= hi
  {
    var total := p.quantity + f.quantity;
    NotionalBetween(p, f, lo, hi, total);
    MulQuotient(Notional(p, f), total);
    Cancel(lo, Notional(p, f) / total, total);
    Cancel(Notional(p, f) / total, hi, total);
  }

  lemma Cancel(x: real, y: real, z: real)
    requires 0.0 < z && x * z <= z * y
    ensures x <= y
  {
  }

  /** The entry price lies within the prices paid since the position was last opened or flipped. */
  lemma {:induction false} EntryWithinSegment(h: seq<Fill>, lo: real, hi: real)
    requires AllProper(h) && h != [] && NetOf(h) != 0.0
    requires forall i :: 0 <= i < |Segment(h)| ==> lo <= Segment(h)[i].price <= hi
    ensures Hold(h, Exactly).position.Some? && lo <= Hold(h, Exactly).position.value.entry <= hi
  {
    var before, f := h[..|h| - 1], h[|h| - 1];
    ExactlyRounds();
    HoldingNet(before, Exactly, 0.0);
    HoldingNet(h, Exactly, 0.0);
    assert Segment(h)[|Segment(h)| - 1] == f;
    if SideFromSigned(NetOf(before)) == SideFromSigned(NetOf(h)) {
      assert forall i :: 0 <= i < |Segment(before)| ==> Segment(before)[i] == Segment(h)[i];
      EntryWithinSegment(before, lo, hi);
      var p := Hold(before, Exactly).position.value;
      if SameDirection(p, f) {
        AveragedNext(p, f, f.instrument, Exactly);
        AverageBetween(p, f, lo, hi);
      }
    }
  }
}
