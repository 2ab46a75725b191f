/** Matching an order against one side of a book snapshot, level by level, and the liquidity it consumes. */
module Matching {
  import opened Model

  datatype Level = Level(price: real, size: real)

  datatype Match = Match(price: real, quantity: real)

  /** `market` orders match at any price, the others up to their limit. */
  datatype BookOrder = BookOrder(side: OrderSide, market: bool, limit: real, quantity: real, filled: real,
    leaves: real) {
    function OpenQuantity(): real {
      if 0.0 < leaves then leaves else quantity - filled
    }

    predicate CanMatch(price: real) {
      market || (if side.Buy? then price <= limit else limit <= price)
    }

    /** What a unit costs the order: a buyer pays the price, a seller gives it up by receiving it. */
    function Badness(price: real): real {
      if side.Sell? then -price else price
    }
  }

  type Consumption = map<real, real>

  function At(c: Consumption, price: real): real {
    if price in c then c[price] else 0.0
  }

  function Left(c: Consumption, level: Level): real {
    var left := level.size - At(c, level.price);
    if left < 0.0 then 0.0 else left
  }

  function Requested(o: BookOrder, max: real): real {
    if 0.0 < max < o.OpenQuantity() then max else o.OpenQuantity()
  }

  /** How much of each level the greedy walk takes. */
  function Allocate(o: BookOrder, levels: seq<Level>, c: Consumption, quantity: real,
      accepts: (real, real) -> bool): (g: seq<real>)
    ensures |g| == |levels|
  {
    if levels == [] then []
    else if quantity <= 0.0 || !o.CanMatch(levels[0].price) then seq(|levels|, _ => 0.0)
    else
      var take := Min(quantity, levels[0].size - At(c, levels[0].price));
      if take <= 0.0 || !accepts(levels[0].price, take) then [0.0] + Allocate(o, levels[1..], c, quantity, accepts)
      else [take] + Allocate(o, levels[1..], c, quantity - take, accepts)
  }

  /** The matches of an allocation: the levels it takes something of. */
  function Matches(levels: seq<Level>, g: seq<real>): seq<Match>
    requires |g| == |levels|
  {
    if levels == [] then []
    else (if 0.0 < g[0] then [Match(levels[0].price, g[0])] else []) + Matches(levels[1..], g[1..])
  }

  lemma {:induction false} NoMatches(levels: seq<Level>, g: seq<real>)
    requires |g| == |levels| && forall i :: 0 <= i < |g| ==> g[i] == 0.0
    ensures Matches(levels, g) == []
  {
    if levels != [] { NoMatches(levels[1..], g[1..]); }
  }

  function Walk(o: BookOrder, levels: seq<Level>, c: Consumption, quantity: real,
      accepts: (real, real) -> bool): seq<Match> {
    Matches(levels, Allocate(o, levels, c, quantity, accepts))
  }

  predicate Stops(o: BookOrder, level: Level, quantity: real) {
    quantity <= 0.0 || !o.CanMatch(level.price)
  }

  /** One level of the walk. */
  lemma WalkStep(o: BookOrder, levels: seq<Level>, c: Consumption, quantity: real, accepts: (real, real) -> bool)
    requires levels != []
    ensures var level := levels[0]; var take := Min(quantity, level.size - At(c, level.price));
            Walk(o, levels, c, quantity, accepts) ==
              if Stops(o, level, quantity) then []
              else if take <= 0.0 || !accepts(level.price, take) then Walk(o, levels[1..], c, quantity, accepts)
              else [Match(level.price, take)] + Walk(o, levels[1..], c, quantity - take, accepts)
  {
    var level, g := levels[0], Allocate(o, levels, c, quantity, accepts);
    var take := Min(quantity, level.size - At(c, level.price));
    if Stops(o, level, quantity) {
      NoMatches(levels, g);
    } else if take <= 0.0 || !accepts(level.price, take) {
      assert g[1..] == Allocate(o, levels[1..], c, quantity, accepts);
    } else {
      assert g[1..] == Allocate(o, levels[1..], c, quantity - take, accepts);
    }
  }

  /** Walks the levels of the order's side in book order. */
  method MatchOrderBook(o: BookOrder, asks: seq<Level>, bids: seq<Level>, c: Consumption, max: real,
      accepts: (real, real) -> bool)
    returns (matches: seq<Match>)
    ensures matches == Walk(o, if o.side.Sell? then bids else asks, c, Requested(o, max), accepts)
    ensures Consistent(o) && o.filled <= o.quantity ==> Total(matches) <= o.quantity - o.filled
    ensures 0.0 < max ==> Total(matches) <= max
  {
    MatchesAtMost(o, if o.side.Sell? then bids else asks, c, max, accepts);
    var quantity := Requested(o, max);
    var levels := if o.side.Sell? then bids else asks;
    matches := [];
    ghost var all := Walk(o, levels, c, quantity, accepts);
    if quantity <= 0.0 {
      if levels != [] { WalkStep(o, levels, c, quantity, accepts); }
      return;
    }
    ghost var rest := all;
    for i := 0 to |levels|
      invariant all == matches + rest && rest == Walk(o, levels[i..], c, quantity, accepts)
    {
      var level := levels[i];
      WalkStep(o, levels[i..], c, quantity, accepts);
      assert levels[i..][1..] == levels[i + 1..];
      if Stops(o, level, quantity) { return; }
      var take := Min(quantity, level.size - At(c, level.price));
      if take <= 0.0 || !accepts(level.price, take) { continue; }
      rest := Walk(o, levels[i + 1..], c, quantity - take, accepts);
      Reassociate(matches, Match(level.price, take), rest);
      matches := matches + [Match(level.price, take)];
      quantity := quantity - take;
    }
  }

  lemma Reassociate(a: seq<Match>, m: Match, b: seq<Match>)
    ensures a + ([m] + b) == (a + [m]) + b
  {
  }

  // ----- Greedy is exact and cheapest -----

  /** Best price first, all prices different; the order has a side, as every submitted order does. */
  ghost predicate Sorted(o: BookOrder, levels: seq<Level>) {
    !o.side.NoSide? && forall i, j :: 0 <= i < j < |levels| ==> o.Badness(levels[i].price) < o.Badness(levels[j].price)
  }

  ghost function Sum(g: seq<real>): real {
    if g == [] then 0.0 else g[0] + Sum(g[1..])
  }

  ghost function Spent(o: BookOrder, levels: seq<Level>, g: seq<real>): real
    requires |g| == |levels|
  {
    if levels == [] then 0.0 else o.Badness(levels[0].price) * g[0] + Spent(o, levels[1..], g[1..])
  }

  /** What is left of all levels the order may match, wherever they stand in the book. */
  ghost function Liquidity(o: BookOrder, levels: seq<Level>, c: Consumption): real {
    if levels == [] then 0.0
    else (if o.CanMatch(levels[0].price) then Left(c, levels[0]) else 0.0) + Liquidity(o, levels[1..], c)
  }

  /** Takes no more than is left of each level, and nothing past the limit. */
  ghost predicate Feasible(o: BookOrder, levels: seq<Level>, c: Consumption, g: seq<real>) {
    |g| == |levels| && forall i :: 0 <= i < |g| ==>
      0.0 <= g[i] <= Left(c, levels[i]) && (0.0 < g[i] ==> o.CanMatch(levels[i].price))
  }

  ghost predicate Accepting(accepts: (real, real) -> bool) {
    forall p, q :: accepts(p, q)
  }

  lemma {:induction false} SumZero(g: seq<real>)
    requires forall i :: 0 <= i < |g| ==> g[i] == 0.0
    ensures Sum(g) == 0.0
  {
    if g != [] { SumZero(g[1..]); }
  }

  /** Past the first level beyond the limit there is nothing to match in a sorted book. */
  lemma {:induction false} NothingBeyond(o: BookOrder, levels: seq<Level>, c: Consumption)
    requires forall i :: 0 <= i < |levels| ==> !o.CanMatch(levels[i].price)
    ensures Liquidity(o, levels, c) == 0.0
  {
    if levels != [] { NothingBeyond(o, levels[1..], c); }
  }

  lemma {:induction false} LiquidityNonNegative(o: BookOrder, levels: seq<Level>, c: Consumption)
    ensures 0.0 <= Liquidity(o, levels, c)
  {
    if levels != [] { LiquidityNonNegative(o, levels[1..], c); }
  }

  lemma {:induction false} AllocateFeasible(o: BookOrder, levels: seq<Level>, c: Consumption, quantity: real,
      accepts: (real, real) -> bool)
    ensures Feasible(o, levels, c, Allocate(o, levels, c, quantity, accepts))
  {
    if levels != [] && 0.0 < quantity && o.CanMatch(levels[0].price) {
      var take := Min(quantity, levels[0].size - At(c, levels[0].price));
      var g := Allocate(o, levels, c, quantity, accepts);
      if take <= 0.0 || !accepts(levels[0].price, take) {
        AllocateFeasible(o, levels[1..], c, quantity, accepts);
        assert g[1..] == Allocate(o, levels[1..], c, quantity, accepts);
      } else {
        AllocateFeasible(o, levels[1..], c, quantity - take, accepts);
        assert g[1..] == Allocate(o, levels[1..], c, quantity - take, accepts);
      }
      assert forall i :: 0 < i < |g| ==> g[i] == g[1..][i - 1] && levels[i] == levels[1..][i - 1];
    }
  }

  // ----- What an order can get -----

  lemma {:induction false} AllocatesAtMost(o: BookOrder, levels: seq<Level>, c: Consumption, quantity: real,
      accepts: (real, real) -> bool)
    ensures 0.0 <= Sum(Allocate(o, levels, c, quantity, accepts)) <= if 0.0 < quantity then quantity else 0.0
  {
    if levels != [] {
      var g, rest := Allocate(o, levels, c, quantity, accepts), levels[1..];
      var take := Min(quantity, levels[0].size - At(c, levels[0].price));
      if Stops(o, levels[0], quantity) {
        SumZero(g);
      } else if take <= 0.0 || !accepts(levels[0].price, take) {
        AllocatesAtMost(o, rest, c, quantity, accepts);
        assert g == [0.0] + Allocate(o, rest, c, quantity, accepts);
      } else {
        AllocatesAtMost(o, rest, c, quantity - take, accepts);
        assert g == [take] + Allocate(o, rest, c, quantity - take, accepts);
      }
    }
  }

  /** The order's own account of what is left of it agrees with its quantities, or it gives none. */
  predicate Consistent(o: BookOrder) {
    o.leaves <= 0.0 || o.leaves == o.quantity - o.filled
  }

  /** Matches take at most what the order has left, and at most what it is allowed. */
  lemma MatchesAtMost(o: BookOrder, levels: seq<Level>, c: Consumption, max: real, accepts: (real, real) -> bool)
    ensures var total := Total(Walk(o, levels, c, Requested(o, max), accepts));
            && 0.0 <= total
            && (Consistent(o) && o.filled <= o.quantity ==> total <= o.quantity - o.filled)
            && (0.0 < max ==> total <= max)
  {
    var g := Allocate(o, levels, c, Requested(o, max), accepts);
    AllocatesAtMost(o, levels, c, Requested(o, max), accepts);
    AllocateFeasible(o, levels, c, Requested(o, max), accepts);
    MatchesTotal(o, levels, g);
  }

  /** A match is at a level of the side it walks, takes no more than is left there, and is no worse than the limit. */
  ghost predicate Fair(o: BookOrder, levels: seq<Level>, c: Consumption, m: Match) {
    exists i :: && 0 <= i < |levels| && levels[i].price == m.price
                && 0.0 < m.quantity <= levels[i].size - At(c, m.price)
                && (o.market || (if o.side == Buy then m.price <= o.limit else m.price >= o.limit))
  }

  lemma {:induction false} MatchesFair(o: BookOrder, levels: seq<Level>, c: Consumption, g: seq<real>, m: Match)
    requires Feasible(o, levels, c, g) && m in Matches(levels, g)
    ensures Fair(o, levels, c, m)
  {
    if m in Matches(levels[1..], g[1..]) {
      MatchesFair(o, levels[1..], c, g[1..], m);
      var i :| 0 <= i < |levels[1..]| && levels[1..][i].price == m.price
               && 0.0 < m.quantity <= levels[1..][i].size - At(c, m.price);
      assert levels[i + 1] == levels[1..][i];
    } else {
      assert levels[0].price == m.price;
    }
  }

  lemma WalkFair(o: BookOrder, levels: seq<Level>, c: Consumption, quantity: real, accepts: (real, real) -> bool,
      m: Match)
    requires m in Walk(o, levels, c, quantity, accepts)
    ensures Fair(o, levels, c, m)
  {
    AllocateFeasible(o, levels, c, quantity, accepts);
    MatchesFair(o, levels, c, Allocate(o, levels, c, quantity, accepts), m);
  }

  /** With an accepting fill model the walk takes all it is asked for, or all there is. */
  lemma {:induction false} TakesAll(o: BookOrder, levels: seq<Level>, c: Consumption, quantity: real,
      accepts: (real, real) -> bool)
    requires Sorted(o, levels) && Accepting(accepts) && 0.0 <= quantity
    ensures Sum(Allocate(o, levels, c, quantity, accepts)) == Min(quantity, Liquidity(o, levels, c))
  {
    LiquidityNonNegative(o, levels, c);
    if levels != [] {
      var g, rest := Allocate(o, levels, c, quantity, accepts), levels[1..];
      LiquidityNonNegative(o, rest, c);
      if quantity <= 0.0 {
        SumZero(g);
      } else if !o.CanMatch(levels[0].price) {
        SumZero(g);
        NothingBeyond(o, levels, c);
      } else {
        var take := Min(quantity, Left(c, levels[0]));
        TakesAll(o, rest, c, quantity - take, accepts);
        assert g == [take] + Allocate(o, rest, c, quantity - take, accepts);
      }
    }
  }

  /** The price at which the greedy walk stops: cheaper levels are used up, dearer ones untouched. */
  ghost predicate Pivot(o: BookOrder, levels: seq<Level>, c: Consumption, g: seq<real>, pivot: real)
    requires |g| == |levels|
  {
    forall i :: 0 <= i < |g| ==>
      && (o.Badness(levels[i].price) < pivot && o.CanMatch(levels[i].price) ==> g[i] == Left(c, levels[i]))
      && (pivot < o.Badness(levels[i].price) ==> g[i] == 0.0)
  }

  lemma {:induction false} PivotExists(o: BookOrder, levels: seq<Level>, c: Consumption, quantity: real,
      accepts: (real, real) -> bool)
    returns (pivot: real)
    requires Sorted(o, levels) && Accepting(accepts)
    ensures Pivot(o, levels, c, Allocate(o, levels, c, quantity, accepts), pivot)
    ensures levels != [] ==> o.Badness(levels[0].price) <= pivot
  {
    if levels == [] {
      pivot := 0.0;
    } else {
      var g, rest := Allocate(o, levels, c, quantity, accepts), levels[1..];
      pivot := o.Badness(levels[0].price);
      if 0.0 < quantity && o.CanMatch(levels[0].price) {
        var take := Min(quantity, Left(c, levels[0]));
        assert g == [take] + Allocate(o, rest, c, quantity - take, accepts);
        var later := PivotExists(o, rest, c, quantity - take, accepts);
        if take == Left(c, levels[0]) && rest != [] {
          pivot := later;
        } else {
          AllocateNothing(o, rest, c, quantity - take, accepts);
        }
      }
    }
  }

  lemma AllocateNothing(o: BookOrder, levels: seq<Level>, c: Consumption, quantity: real, accepts: (real, real) -> bool)
    ensures quantity <= 0.0 ==> forall i :: 0 <= i < |levels| ==> Allocate(o, levels, c, quantity, accepts)[i] == 0.0
  {
  }

  /** The cost of an allocation relative to the pivot. */
  ghost function Excess(o: BookOrder, levels: seq<Level>, g: seq<real>, pivot: real): real
    requires |g| == |levels|
  {
    if levels == [] then 0.0 else Over(o, levels[0], pivot, g[0]) + Excess(o, levels[1..], g[1..], pivot)
  }

  ghost function Over(o: BookOrder, level: Level, pivot: real, x: real): real {
    (o.Badness(level.price) - pivot) * x
  }

  lemma {:induction false} ExcessIsSpent(o: BookOrder, levels: seq<Level>, g: seq<real>, pivot: real)
    requires |g| == |levels|
    ensures Spent(o, levels, g) == Excess(o, levels, g, pivot) + pivot * Sum(g)
  {
    if levels == [] {
      assert pivot * 0.0 == 0.0;
    } else {
      ExcessIsSpent(o, levels[1..], g[1..], pivot);
      Expand(o.Badness(levels[0].price), pivot, g[0], Sum(g[1..]), Sum(g));
    }
  }

  lemma Expand(bad: real, pivot: real, x: real, rest: real, sum: real)
    requires sum == x + rest
    ensures (bad - pivot) * x == bad * x + pivot * rest - pivot * sum
  {
    assert pivot * sum == pivot * x + pivot * rest;
    assert (bad - pivot) * x == bad * x - pivot * x;
  }

  lemma OverLeast(o: BookOrder, level: Level, pivot: real, g: real, a: real)
    requires pivot < o.Badness(level.price) ==> g <= a
    requires o.Badness(level.price) < pivot ==> a <= g
    ensures Over(o, level, pivot, g) <= Over(o, level, pivot, a)
  {
    assert 0.0 <= (o.Badness(level.price) - pivot) * (a - g);
  }

  /** Moving quantity away from the pivot can only cost. */
  lemma {:induction false} ExcessLeast(o: BookOrder, levels: seq<Level>, c: Consumption, g: seq<real>, a: seq<real>,
      pivot: real)
    requires Feasible(o, levels, c, g) && Feasible(o, levels, c, a) && Pivot(o, levels, c, g, pivot)
    ensures Excess(o, levels, g, pivot) <= Excess(o, levels, a, pivot)
  {
    if levels != [] {
      ExcessLeast(o, levels[1..], c, g[1..], a[1..], pivot);
      OverLeast(o, levels[0], pivot, g[0], a[0]);
    }
  }

  lemma SpentLeast(o: BookOrder, levels: seq<Level>, c: Consumption, g: seq<real>, a: seq<real>, pivot: real,
      total: real)
    requires Feasible(o, levels, c, g) && Feasible(o, levels, c, a) && Pivot(o, levels, c, g, pivot)
    requires Sum(g) == total == Sum(a)
    ensures Spent(o, levels, g) <= Spent(o, levels, a)
  {
    ExcessLeast(o, levels, c, g, a, pivot);
    ExcessIsSpent(o, levels, g, pivot);
    ExcessIsSpent(o, levels, a, pivot);
    assert pivot * Sum(g) == pivot * total == pivot * Sum(a);
  }

  /** No other way to take as much from the book costs less (or, for a sale, brings in more). */
  lemma GreedyIsCheapest(o: BookOrder, levels: seq<Level>, c: Consumption, quantity: real,
      accepts: (real, real) -> bool,
                         g: seq<real>, a: seq<real>)
    requires Sorted(o, levels) && Accepting(accepts) && g == Allocate(o, levels, c, quantity, accepts)
    requires Feasible(o, levels, c, a) && Sum(a) == Sum(g)
    ensures Spent(o, levels, g) <= Spent(o, levels, a)
  {
    AllocateFeasible(o, levels, c, quantity, accepts);
    var pivot := PivotExists(o, levels, c, quantity, accepts);
    SpentLeast(o, levels, c, g, a, pivot, Sum(g));
  }

  // ----- What the matches add up to -----

  ghost function Total(ms: seq<Match>): real {
    if ms == [] then 0.0 else ms[0].quantity + Total(ms[1..])
  }

  ghost function Outlay(o: BookOrder, ms: seq<Match>): real {
    if ms == [] then 0.0 else o.Badness(ms[0].price) * ms[0].quantity + Outlay(o, ms[1..])
  }

  lemma {:induction false} MatchesTotal(o: BookOrder, levels: seq<Level>, g: seq<real>)
    requires |g| == |levels| && forall i :: 0 <= i < |g| ==> 0.0 <= g[i]
    ensures Total(Matches(levels, g)) == Sum(g) && Outlay(o, Matches(levels, g)) == Spent(o, levels, g)
  {
    if levels != [] {
      MatchesTotal(o, levels[1..], g[1..]);
      var rest := Matches(levels[1..], g[1..]);
      if 0.0 < g[0] {
        assert Matches(levels, g) == [Match(levels[0].price, g[0])] + rest;
        assert ([Match(levels[0].price, g[0])] + rest)[1..] == rest;
      } else {
        assert Matches(levels, g) == rest && o.Badness(levels[0].price) * 0.0 == 0.0;
      }
    }
  }

  /** Greedy matching takes the lesser of what is asked for and what crosses, at the least possible outlay. */
  lemma WalkOptimal(o: BookOrder, levels: seq<Level>, c: Consumption, quantity: real, accepts: (real, real) -> bool,
      a: seq<real>)
    requires Sorted(o, levels) && Accepting(accepts) && 0.0 <= quantity
    ensures var ms := Walk(o, levels, c, quantity, accepts);
            && Total(ms) == Min(quantity, Liquidity(o, levels, c))
            && (Feasible(o, levels, c, a) && Sum(a) == Total(ms) ==> Outlay(o, ms) <= Spent(o, levels, a))
  {
    var g := Allocate(o, levels, c, quantity, accepts);
    AllocateFeasible(o, levels, c, quantity, accepts);
    MatchesTotal(o, levels, g);
    TakesAll(o, levels, c, quantity, accepts);
    if Feasible(o, levels, c, a) && Sum(a) == Sum(g) {
      GreedyIsCheapest(o, levels, c, quantity, accepts, g, a);
    }
  }

  /** What crosses the order, level by level: all that is left at prices no worse than its limit, at any price for a
      market order. */
  ghost function Crossing(o: BookOrder, levels: seq<Level>, c: Consumption): real {
    if levels == [] then 0.0
    else
      var price, left := levels[0].price, levels[0].size - At(c, levels[0].price);
      var crosses := o.market || (o.side == Buy && price <= o.limit) || (o.side != Buy && price >= o.limit);
      (if crosses && 0.0 < left then left else 0.0) + Crossing(o, levels[1..], c)
  }

  lemma {:induction false} CrossingIsLiquidity(o: BookOrder, levels: seq<Level>, c: Consumption)
    ensures Crossing(o, levels, c) == Liquidity(o, levels, c)
  {
    if levels != [] { CrossingIsLiquidity(o, levels[1..], c); }
  }

  /** With an accepting fill model an order gets what it has left, but at most what it is allowed and what crosses. What
      it has left is what it says, or failing that its quantity less what has filled. */
  lemma GetsExactly(o: BookOrder, levels: seq<Level>, c: Consumption, max: real, accepts: (real, real) -> bool,
      open: real)
    requires Sorted(o, levels) && Accepting(accepts) && 0.0 <= open
    requires if 0.0 < o.leaves then open == o.leaves else open == o.quantity - o.filled
    ensures var total := Total(Walk(o, levels, c, Requested(o, max), accepts)); var crossing := Crossing(o, levels, c);
            && total <= open && total <= crossing && (0.0 < max ==> total <= max)
            && (total == open || total == crossing || (0.0 < max && total == max))
  {
    CrossingIsLiquidity(o, levels, c);
    WalkOptimal(o, levels, c, Requested(o, max), accepts, []);
  }

  // ----- Successive matches on one snapshot -----

  ghost function TakenAt(ms: seq<Match>, price: real): real {
    if ms == [] then 0.0 else (if ms[0].price == price then ms[0].quantity else 0.0) + TakenAt(ms[1..], price)
  }

  function Record(c: Consumption, ms: seq<Match>): Consumption
    decreases |ms|
  {
    if ms == [] then c else Record(c[ms[0].price := At(c, ms[0].price) + ms[0].quantity], ms[1..])
  }

  lemma {:induction false} RecordAdds(c: Consumption, ms: seq<Match>, price: real)
    ensures At(Record(c, ms), price) == At(c, price) + TakenAt(ms, price)
    decreases |ms|
  {
    if ms != [] { RecordAdds(c[ms[0].price := At(c, ms[0].price) + ms[0].quantity], ms[1..], price); }
  }

  lemma TakenCons(levels: seq<Level>, g: seq<real>, price: real)
    requires |g| == |levels| && levels != []
    ensures TakenAt(Matches(levels, g), price) ==
            (if levels[0].price == price && 0.0 < g[0] then g[0]
              else 0.0) + TakenAt(Matches(levels[1..], g[1..]), price)
  {
    var rest := Matches(levels[1..], g[1..]);
    if 0.0 < g[0] {
      assert ([Match(levels[0].price, g[0])] + rest)[1..] == rest;
    } else {
      assert [] + rest == rest;
    }
  }

  lemma {:induction false} TakenElsewhere(levels: seq<Level>, g: seq<real>, price: real)
    requires |g| == |levels| && forall i :: 0 <= i < |levels| ==> levels[i].price != price
    ensures TakenAt(Matches(levels, g), price) == 0.0
  {
    if levels != [] {
      TakenElsewhere(levels[1..], g[1..], price);
      TakenCons(levels, g, price);
    }
  }

  /** What is taken at a level's price is what was allocated to the level. */
  lemma {:induction false} TakenHere(levels: seq<Level>, g: seq<real>, k: nat)
    requires |g| == |levels| && k < |levels| && 0.0 <= g[k]
    requires forall i, j :: 0 <= i < j < |levels| ==> levels[i].price != levels[j].price
    ensures TakenAt(Matches(levels, g), levels[k].price) == g[k]
  {
    TakenCons(levels, g, levels[k].price);
    if k == 0 {
      TakenElsewhere(levels[1..], g[1..], levels[0].price);
    } else {
      TakenHere(levels[1..], g[1..], k - 1);
    }
  }

  ghost predicate AllPositive(ms: seq<Match>) {
    forall i :: 0 <= i < |ms| ==> 0.0 < ms[i].quantity
  }

  lemma {:induction false} MatchesPositive(levels: seq<Level>, g: seq<real>)
    requires |g| == |levels|
    ensures AllPositive(Matches(levels, g))
  {
    if levels != [] { MatchesPositive(levels[1..], g[1..]); }
  }

  lemma {:induction false} TakenPrefix(ms: seq<Match>, n: nat, price: real)
    requires n <= |ms| && AllPositive(ms)
    ensures 0.0 <= TakenAt(ms[..n], price) <= TakenAt(ms, price)
  {
    if ms != [] {
      TakenPrefix(ms[1..], if n == 0 then 0 else n - 1, price);
      if n != 0 { assert ms[..n][1..] == ms[1..][..n - 1]; }
    }
  }

  datatype Book = Book(asks: seq<Level>, bids: seq<Level>) {
    /** Both sides sorted best first and not crossed. */
    ghost predicate Proper() {
      && (forall i, j :: 0 <= i < j < |asks| ==> asks[i].price < asks[j].price)
      && (forall i, j :: 0 <= i < j < |bids| ==> bids[j].price < bids[i].price)
      && (forall i, j :: 0 <= i < |bids| && 0 <= j < |asks| ==> bids[i].price < asks[j].price)
    }

    function Side(o: BookOrder): seq<Level> {
      if o.side.Sell? then bids else asks
    }
  }

  ghost predicate Within(c: Consumption, levels: seq<Level>) {
    forall i :: 0 <= i < |levels| ==> 0.0 <= At(c, levels[i].price) <= levels[i].size
  }

  /** Matching one side of the book keeps its consumption within its sizes and leaves the other side alone. */
  lemma RecordWithin(b: Book, c: Consumption, o: BookOrder, quantity: real, accepts: (real, real) -> bool, n: nat)
    requires b.Proper() && Within(c, b.asks) && Within(c, b.bids) && n <= |Walk(o, b.Side(o), c, quantity, accepts)|
    ensures var c' := Record(c, Walk(o, b.Side(o), c, quantity, accepts)[..n]); Within(c', b.asks) && Within(c', b.bids)
  {
    var levels := b.Side(o);
    var g := Allocate(o, levels, c, quantity, accepts);
    var ms := Matches(levels, g);
    AllocateFeasible(o, levels, c, quantity, accepts);
    MatchesPositive(levels, g);
    SideWithin(b, c, levels, g, b.asks, n);
    SideWithin(b, c, levels, g, b.bids, n);
  }

  lemma SideWithin(b: Book, c: Consumption, levels: seq<Level>, g: seq<real>, side: seq<Level>, n: nat)
    requires b.Proper() && (levels == b.asks || levels == b.bids) && (side == b.asks || side == b.bids)
                 && Within(c, side)
    requires |g| == |levels| && forall i :: 0 <= i < |g| ==> 0.0 <= g[i] <= Left(c, levels[i])
    requires n <= |Matches(levels, g)|
    ensures Within(Record(c, Matches(levels, g)[..n]), side)
  {
    var ms := Matches(levels, g);
    MatchesPositive(levels, g);
    forall k | 0 <= k < |side| ensures 0.0 <= At(Record(c, ms[..n]), side[k].price) <= side[k].size {
      RecordAdds(c, ms[..n], side[k].price);
      TakenPrefix(ms, n, side[k].price);
      if side == levels { TakenHere(levels, g, k); } else { TakenElsewhere(levels, g, side[k].price); }
    }
  }

  /** A request against the snapshot; `applied` of its matches are applied before the first failure. */
  datatype Request = Request(order: BookOrder, quantity: real, accepts: (real, real) -> bool, applied: nat)

  function MatchesOf(b: Book, c: Consumption, r: Request): seq<Match> {
    var ms := Walk(r.order, b.Side(r.order), c, r.quantity, r.accepts);
    if r.applied < |ms| then ms[..r.applied] else ms
  }

  /** Whatever the request, a sale matches bids and a purchase asks, each fairly. */
  lemma RequestFair(b: Book, c: Consumption, r: Request, m: Match)
    requires m in MatchesOf(b, c, r)
    ensures r.order.side == Sell ==> Fair(r.order, b.bids, c, m)
    ensures r.order.side != Sell ==> Fair(r.order, b.asks, c, m)
  {
    WalkFair(r.order, b.Side(r.order), c, r.quantity, r.accepts, m);
  }

  function Consume(b: Book, c: Consumption, rs: seq<Request>): Consumption
    decreases |rs|
  {
    if rs == [] then c else Consume(b, Record(c, MatchesOf(b, c, rs[0])), rs[1..])
  }

  ghost function TakenByAll(b: Book, c: Consumption, rs: seq<Request>, price: real): real
    decreases |rs|
  {
    if rs == [] then 0.0
    else TakenAt(MatchesOf(b, c, rs[0]), price) + TakenByAll(b, Record(c, MatchesOf(b, c, rs[0])), rs[1..], price)
  }

  /** Over any run of requests on one snapshot, all matches at a price together stay within the level's size. */
  lemma {:induction false} SnapshotNeverOverdrawn(b: Book, c: Consumption, rs: seq<Request>, price: real)
    requires b.Proper() && Within(c, b.asks) && Within(c, b.bids)
    ensures Within(Consume(b, c, rs), b.asks) && Within(Consume(b, c, rs), b.bids)
    ensures At(Consume(b, c, rs), price) == At(c, price) + TakenByAll(b, c, rs, price)
    decreases |rs|
  {
    if rs != [] {
      var r := rs[0];
      var ms := Walk(r.order, b.Side(r.order), c, r.quantity, r.accepts);
      var n := if r.applied < |ms| then r.applied else |ms|;
      assert MatchesOf(b, c, r) == ms[..n];
      RecordWithin(b, c, r.order, r.quantity, r.accepts, n);
      RecordAdds(c, MatchesOf(b, c, r), price);
      SnapshotNeverOverdrawn(b, Record(c, MatchesOf(b, c, r)), rs[1..], price);
    }
  }

  /** The backtest's side of the matching: fills are applied one by one and their consumption recorded. */
  class Runtime {
    var consumed: Consumption

    constructor ()
      ensures consumed == map[]
    {
      consumed := map[];
    }

    method RecordConsumption(price: real, quantity: real)
      modifies this
      ensures consumed == old(consumed)[price := At(old(consumed), price) + quantity]
    {
      consumed := consumed[price := At(consumed, price) + quantity];
    }

    /** `max` is what the fill model lets match, and `applied` counts the matches whose fills are applied before one
        fails. */
    method MatchAgainstBook(o: BookOrder, book: Book, max: real, accepts: (real, real) -> bool, applied: nat)
      returns (matches: seq<Match>)
      modifies this
      ensures matches ==
                if max <= 0.0 then []
                else MatchesOf(book, old(consumed), Request(o, Requested(o, max), accepts, applied))
      ensures consumed == Record(old(consumed), matches)
      ensures book.Proper() && old(Within(consumed, book.asks) && Within(consumed, book.bids))
              ==> Within(consumed, book.asks) && Within(consumed, book.bids)
    {
      if max <= 0.0 { return []; }
      var all := MatchOrderBook(o, book.asks, book.bids, consumed, max, accepts);
      var n := if applied < |all| then applied else |all|;
      if book.Proper() && Within(consumed, book.asks) && Within(consumed, book.bids) {
        RecordWithin(book, consumed, o, Requested(o, max), accepts, n);
      }
      matches := all[..n];
      for i := 0 to |matches|
        invariant Record(old(consumed), matches) == Record(consumed, matches[i..])
      {
        assert matches[i..][1..] == matches[i + 1..];
        RecordConsumption(matches[i].price, matches[i].quantity);
      }
    }
  }
}
