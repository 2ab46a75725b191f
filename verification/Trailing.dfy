/** What the emulator promises over whole runs: extremes, ratchets, and one release per submission. */
module Trailing {
  import opened Model
  import opened Emulation

  // ----- The extreme, declaratively -----

  /** A price an order was evaluated at, and the price ticks known at the time. */
  datatype Sighting = Sighting(price: real, ticks: TickTable)

  /** The sightings from the first one that activates the order. */
  function Since(o: Submit, ps: seq<Sighting>): seq<Sighting> {
    if ps == [] then [] else if Activates(o, ps[0].price) then ps else Since(o, ps[1..])
  }

  /** `x` is the best of the prices for the side: the highest for a sell, the lowest for a buy. */
  ghost predicate IsPeak(side: OrderSide, x: real, ps: seq<Sighting>) {
    && (exists i :: 0 <= i < |ps| && ps[i].price == x)
    && (forall i :: 0 <= i < |ps| ==> (side.Sell? ==> ps[i].price <= x) && (side.Buy? ==> x <= ps[i].price))
  }

  lemma {:induction false} SinceExtends(o: Submit, ps: seq<Sighting>, p: Sighting)
    ensures Since(o, ps + [p]) ==
              if Since(o, ps) != [] then Since(o, ps) + [p] else if Activates(o, p.price) then [p] else []
  {
    if ps == [] {
      assert ps + [p] == [p] && [p][1..] == [];
    } else {
      assert (ps + [p])[1..] == ps[1..] + [p];
      SinceExtends(o, ps[1..], p);
    }
  }

  /** Where the trigger stands for an extreme, if the offset can be priced. */
  function Level(o: Submit, x: real, ticks: TickTable): Option<real> {
    match OffsetPrice(o, x, ticks)
    case None => None
    case Some(offset) => Some(if o.side.Sell? then x - offset else x + offset)
  }

  function LastTicks(ps: seq<Sighting>): TickTable {
    if ps == [] then map[] else ps[|ps| - 1].ticks
  }

  /** Where the trigger stands for an extreme at the last sighting. */
  function LastLevel(o: Submit, x: real, ps: seq<Sighting>): Option<real> {
    Level(o, x, LastTicks(ps))
  }

  /** The last price has reached the trigger that the best price since activation sets. */
  ghost predicate Crosses(o: Submit, ps: seq<Sighting>) {
    Since(o, ps) != [] &&
    exists x :: IsPeak(o.side, x, Since(o, ps)) && Crossed(o, x, ps)
  }

  predicate Crossed(o: Submit, x: real, ps: seq<Sighting>) {
    ps != [] && LastLevel(o, x, ps).Some? && Reaches(o.side, ps[|ps| - 1].price, LastLevel(o, x, ps).value)
  }

  predicate Reaches(side: OrderSide, p: real, level: real) {
    if side.Sell? then p <= level else level <= p
  }

  datatype Judgement = Faithful | Wrong

  /** An order held after the sightings `ps`: its extreme, its trigger, and that it has not crossed before. */
  ghost function Follows(o: Submit, extreme: Option<real>, ps: seq<Sighting>): Judgement {
    if && (extreme.None? <==> Since(o, ps) == [])
       && (extreme.Some? ==> IsPeak(o.side, extreme.value, Since(o, ps)))
       && (extreme.Some? && LastLevel(o, extreme.value, ps).Some? ==> o.stop == LastLevel(o, extreme.value, ps).value)
       && (forall n :: 0 < n <= |ps| ==> !Crosses(o, ps[..n]))
    then Faithful else Wrong
  }

  lemma PeakUnique(side: OrderSide, x: real, y: real, ps: seq<Sighting>)
    requires !side.NoSide? && IsPeak(side, x, ps) && IsPeak(side, y, ps)
    ensures x == y
  {
  }

  lemma PeakExtends(side: OrderSide, x: real, ps: seq<Sighting>, p: Sighting)
    requires !side.NoSide? && IsPeak(side, x, ps)
    ensures IsPeak(side, Better(side, x, p.price), ps + [p])
  {
    assert (ps + [p])[|ps|] == p;
    var i :| 0 <= i < |ps| && ps[i].price == x;
    assert (ps + [p])[i].price == x;
  }

  /** The same order but for where its trigger stands. */
  predicate SameTerms(o: Submit, o': Submit) {
    o' == o.(stop := o'.stop, quantity := o'.quantity, price := o'.price, lifetime := o'.lifetime)
  }

  lemma {:induction false} SinceSame(o: Submit, o': Submit, ps: seq<Sighting>)
    requires SameTerms(o, o')
    ensures Since(o, ps) == Since(o', ps)
  {
    if ps != [] { SinceSame(o, o', ps[1..]); }
  }

  lemma CrossesSame(o: Submit, o': Submit, ps: seq<Sighting>)
    requires SameTerms(o, o')
    ensures Crosses(o, ps) <==> Crosses(o', ps)
  {
    SinceSame(o, o', ps);
    forall x ensures Crossed(o, x, ps) <==> Crossed(o', x, ps) { }
  }

  /** What a verdict says of a sighting, apart from how it is computed. */
  ghost function Sound(o: Submit, extreme: Option<real>, w: Sighting, v: Verdict): Judgement {
    if && SameTerms(o, v.order) && (v.updated || v.order == o)
       && v.extreme == Moved(o, extreme, w.price)
       && (v.extreme.Some? && Level(o, v.extreme.value, w.ticks).Some? ==>
             v.order.stop == Level(o, v.extreme.value, w.ticks).value)
       && (v.triggered <==> v.extreme.Some? && Crossed(o, v.extreme.value, [w]))
    then Faithful else Wrong
  }

  /** The extreme after one more price. */
  function Moved(o: Submit, extreme: Option<real>, p: real): Option<real> {
    if extreme.Some? then Some(Better(o.side, extreme.value, p)) else if Activates(o, p) then Some(p) else None
  }

  lemma EvaluateSound(o: Submit, extreme: Option<real>, e: MarketEvent, w: Sighting)
    requires o.Valid() && o.kind.IsTrailing() && EmulationPrice(o, e) == Some(w.price)
    ensures Sound(o, extreme, w, Evaluate(o, extreme, e, w.ticks)).Faithful?
  {
  }

  lemma ExtremeFollows(o: Submit, extreme: Option<real>, ps: seq<Sighting>, w: Sighting, v: Verdict)
    requires !o.side.NoSide? && Follows(o, extreme, ps).Faithful? && Sound(o, extreme, w, v).Faithful?
    ensures v.extreme.None? <==> Since(o, ps + [w]) == []
    ensures v.extreme.Some? ==> forall x :: IsPeak(o.side, x, Since(o, ps + [w])) <==> x == v.extreme.value
  {
    SinceExtends(o, ps, w);
    if v.extreme.Some? {
      if extreme.Some? { PeakExtends(o.side, extreme.value, Since(o, ps), w); } else { PeakOfOne(o.side, w); }
      forall x | IsPeak(o.side, x, Since(o, ps + [w])) ensures x == v.extreme.value {
        PeakUnique(o.side, x, v.extreme.value, Since(o, ps + [w]));
      }
    }
  }

  lemma PeakOfOne(side: OrderSide, w: Sighting)
    ensures IsPeak(side, w.price, [w])
  {
    assert [w][0] == w;
  }

  lemma CrossedLast(o: Submit, x: real, ps: seq<Sighting>, w: Sighting)
    ensures Crossed(o, x, ps + [w]) <==> Crossed(o, x, [w])
    ensures LastLevel(o, x, ps + [w]) == Level(o, x, w.ticks)
  {
    assert (ps + [w])[|ps|] == w;
  }

  lemma TriggersAtCrossing(o: Submit, extreme: Option<real>, ps: seq<Sighting>, w: Sighting, v: Verdict)
    requires !o.side.NoSide? && Follows(o, extreme, ps).Faithful? && Sound(o, extreme, w, v).Faithful?
    ensures v.triggered <==> Crosses(o, ps + [w])
  {
    ExtremeFollows(o, extreme, ps, w, v);
    if v.extreme.Some? { CrossedLast(o, v.extreme.value, ps, w); }
  }

  /** Evaluating one more price keeps the extreme, and triggers exactly when the price crosses. */
  lemma EvaluateFollows(o: Submit, extreme: Option<real>, ps: seq<Sighting>, w: Sighting, v: Verdict)
    requires !o.side.NoSide? && Follows(o, extreme, ps).Faithful? && Sound(o, extreme, w, v).Faithful?
    ensures v.triggered <==> Crosses(o, ps + [w])
    ensures !v.triggered ==> Follows(v.order, v.extreme, ps + [w]).Faithful?
  {
    var all := ps + [w];
    ExtremeFollows(o, extreme, ps, w, v);
    TriggersAtCrossing(o, extreme, ps, w, v);
    SinceSame(o, v.order, all);
    if v.extreme.Some? { CrossedLast(v.order, v.extreme.value, ps, w); }
    if !v.triggered {
      forall n | 0 < n <= |all| ensures !Crosses(v.order, all[..n]) {
        CrossesSame(o, v.order, all[..n]);
        assert if n <= |ps| then all[..n] == ps[..n] else all[..n] == all;
      }
    }
  }

  // ----- One event, many orders -----

  /** What the desk holds under one key. */
  datatype Slot = Slot(order: Option<Submit>, extreme: Option<real>)

  function SlotOf(s: Desk, k: Key): Slot {
    Slot(if k in s.orders then Some(s.orders[k]) else None, s.Extreme(k))
  }

  function Count(released: seq<Submit>, k: Key): nat {
    if released == [] then 0
    else Count(released[..|released| - 1], k) + if released[|released| - 1].At() == k then 1 else 0
  }

  lemma {:induction false} CountAdds(a: seq<Submit>, b: seq<Submit>, k: Key)
    ensures Count(a + b, k) == Count(a, k) + Count(b, k)
  {
    if b == [] {
      assert a + b == a;
    } else {
      assert (a + b)[..|a + b| - 1] == a + b[..|b| - 1];
      CountAdds(a, b[..|b| - 1], k);
    }
  }

  ghost predicate Distinct(keys: seq<Key>) {
    forall i, j :: 0 <= i < j < |keys| ==> keys[i] != keys[j]
  }

  /** Held orders are valid and filed under their own key, and only held orders have an extreme. */
  ghost predicate Orderly(s: Desk) {
    && (forall k :: k in s.orders ==> s.orders[k].At() == k && s.orders[k].Valid() && !s.orders[k].trigger.NoTrigger?)
    && s.trailing.Keys <= s.orders.Keys
  }

  lemma LookKeeps(s: Desk, k: Key, o: Submit, e: MarketEvent, ticks: TickTable)
    requires o.Valid()
    ensures var v := s.Look(k, o, e, ticks); v.order == o.(stop := v.order.stop) && v.order.Valid()
    ensures Transform(s.Look(k, o, e, ticks).order).At() == o.At()
  {
  }

  lemma ObservedOrderly(s: Desk, k: Key, e: MarketEvent, ticks: TickTable)
    requires Orderly(s) && k in s.orders
    ensures Orderly(Observed(s, k, e, ticks).desk)
  {
    LookKeeps(s, k, s.orders[k], e, ticks);
  }

  lemma ObservedElsewhere(s: Desk, k: Key, e: MarketEvent, ticks: TickTable, j: Key)
    requires Orderly(s) && k in s.orders && j != k
    ensures SlotOf(Observed(s, k, e, ticks).desk, j) == SlotOf(s, j) && Count(Observed(s, k, e, ticks).released, j) == 0
  {
    LookKeeps(s, k, s.orders[k], e, ticks);
  }

  lemma ObservedSame(s: Desk, t: Desk, k: Key, e: MarketEvent, ticks: TickTable)
    requires k in s.orders && SlotOf(s, k) == SlotOf(t, k)
    ensures k in t.orders && SlotOf(Observed(s, k, e, ticks).desk, k) == SlotOf(Observed(t, k, e, ticks).desk, k)
    ensures Observed(s, k, e, ticks).released == Observed(t, k, e, ticks).released
  {
  }

  lemma {:induction false} ObservedAllOrderly(s: Desk, keys: seq<Key>, e: MarketEvent, ticks: TickTable)
    requires Orderly(s)
    ensures Orderly(ObservedAll(s, keys, e, ticks).desk)
  {
    if keys != [] {
      ObservedAllOrderly(s, keys[..|keys| - 1], e, ticks);
      var before, k := ObservedAll(s, keys[..|keys| - 1], e, ticks), keys[|keys| - 1];
      if k in before.desk.orders { ObservedOrderly(before.desk, k, e, ticks); }
    }
  }

  /** Each order an event concerns meets it as if it were alone, whatever the order of the keys. */
  lemma {:induction false} ObservedAllAt(s: Desk, keys: seq<Key>, e: MarketEvent, ticks: TickTable, k: Key)
    requires Orderly(s) && Distinct(keys) && forall j :: j in keys ==> j in s.orders
    ensures SlotOf(ObservedAll(s, keys, e, ticks).desk, k) == SlotOf(if k in keys then Observed(s, k, e, ticks).desk
                else s, k)
    ensures Count(ObservedAll(s, keys, e, ticks).released, k) == if k in keys then |Observed(s, k, e, ticks).released|
                else 0
  {
    if keys != [] {
      var before, last := keys[..|keys| - 1], keys[|keys| - 1];
      var out := ObservedAll(s, before, e, ticks);
      ObservedAllAt(s, before, e, ticks, k);
      ObservedAllAt(s, before, e, ticks, last);
      ObservedAllOrderly(s, before, e, ticks);
      ObservedSame(s, out.desk, last, e, ticks);
      CountAdds(out.released, Observed(out.desk, last, e, ticks).released, k);
      assert keys == before + [last];
      if k != last { ObservedElsewhere(out.desk, last, e, ticks, k); } else { ReleaseCounts(out.desk, k, e, ticks); }
    }
  }

  lemma ReleaseCounts(s: Desk, k: Key, e: MarketEvent, ticks: TickTable)
    requires Orderly(s) && k in s.orders
    ensures Count(Observed(s, k, e, ticks).released, k) == |Observed(s, k, e, ticks).released|
  {
    LookKeeps(s, k, s.orders[k], e, ticks);
  }

  // ----- Runs -----

  /** `keys` is the order in which the event's orders are visited. */
  datatype Command =
    | Submitting(order: Submit, latest: Option<MarketEvent>, ticks: TickTable)
    | Observing(event: MarketEvent, keys: seq<Key>, ticks: TickTable)
    | Cancelling(found: Option<Key>)
    | Modifying(found: Option<Key>, change: Change, latest: Option<MarketEvent>, ticks: TickTable)

  function Handle(s: Desk, c: Command): Outcome {
    match c
    case Submitting(o, latest, ticks) => TakeIn(s, o, latest, ticks)
    case Observing(e, keys, ticks) => if e.Valid() then ObservedAll(s, keys, e, ticks) else Outcome(s, [])
    case Cancelling(found) => Outcome(Cancelled(s, found), [])
    case Modifying(found, change, latest, ticks) => Modified(s, found, change, latest, ticks)
  }

  function Run(cs: seq<Command>): Desk {
    if cs == [] then Desk(map[], map[]) else Handle(Run(cs[..|cs| - 1]), cs[|cs| - 1]).desk
  }

  /** An event visits each order that watches its instrument once, and cached events are valid. */
  ghost predicate Visits(s: Desk, c: Command) {
    && (c.Observing? ==> Distinct(c.keys) && forall k :: k in c.keys <==> Concerned(s, k, c.event))
    && ((c.Submitting? || c.Modifying?) && c.latest.Some? ==> c.latest.value.Valid())
  }

  ghost predicate Visited(cs: seq<Command>) {
    cs == [] || (Visited(cs[..|cs| - 1]) && Visits(Run(cs[..|cs| - 1]), cs[|cs| - 1]))
  }

  lemma AmendKeeps(s: Desk, k: Key, c: Change)
    requires Orderly(s) && k in s.orders && Amend(s.orders[k], c).Some?
    ensures Orderly(Amended(s, k, Amend(s.orders[k], c).value, c))
  {
    assert s.orders[k].Valid() && s.orders[k].At() == k;
  }

  lemma ModifiedOrderly(s: Desk, found: Option<Key>, c: Change, latest: Option<MarketEvent>, ticks: TickTable)
    requires Orderly(s)
    ensures Orderly(Modified(s, found, c, latest, ticks).desk)
  {
    if found.Some? && found.value in s.orders && Amend(s.orders[found.value], c).Some? {
      AmendKeeps(s, found.value, c);
      if latest.Some? { ObservedOrderly(Amended(s, found.value, Amend(s.orders[found.value], c).value, c), found.value,
        latest.value, ticks); }
    }
  }

  lemma HandleOrderly(s: Desk, c: Command)
    requires Orderly(s)
    ensures Orderly(Handle(s, c).desk)
  {
    match c
    case Submitting(o, latest, ticks) => if o.Valid() && latest.Some? { LookKeeps(s, o.At(), o, latest.value, ticks); }
    case Observing(e, keys, ticks) => ObservedAllOrderly(s, keys, e, ticks);
    case Cancelling(found) =>
    case Modifying(found, change, latest, ticks) => ModifiedOrderly(s, found, change, latest, ticks);
  }

  /** In every reachable state the trailing extremes belong to held orders. */
  lemma {:induction false} RunOrderly(cs: seq<Command>)
    ensures Orderly(Run(cs))
  {
    if cs != [] {
      RunOrderly(cs[..|cs| - 1]);
      HandleOrderly(Run(cs[..|cs| - 1]), cs[|cs| - 1]);
    }
  }

  // ----- One release per submission -----

  predicate Accepts(c: Command, k: Key) {
    c.Submitting? && c.order.Valid() && !c.order.trigger.NoTrigger? && c.order.At() == k
  }

  function Held(s: Desk, k: Key): nat {
    if k in s.orders then 1 else 0
  }

  function Cancels(s: Desk, c: Command, k: Key): nat {
    if c.Cancelling? && c.found == Some(k) then Held(s, k) else 0
  }

  /** A submission under a key still held takes the held order's place, unless it is released at once. */
  function Replaces(s: Desk, c: Command, k: Key): nat {
    if Accepts(c, k) && Handle(s, c).released == [] then Held(s, k) else 0
  }

  lemma ObservedConserves(s: Desk, k: Key, e: MarketEvent, ticks: TickTable, j: Key)
    requires Orderly(s) && k in s.orders
    ensures Held(Observed(s, k, e, ticks).desk, j) + Count(Observed(s, k, e, ticks).released, j) == Held(s, j)
  {
    if j != k {
      ObservedElsewhere(s, k, e, ticks, j);
      assert SlotOf(Observed(s, k, e, ticks).desk, j).order.Some? <==> SlotOf(s, j).order.Some?;
    } else {
      ReleaseCounts(s, k, e, ticks);
    }
  }

  lemma ModifiedConserves(s: Desk, found: Option<Key>, c: Change, latest: Option<MarketEvent>, ticks: TickTable, k: Key)
    requires Orderly(s)
    ensures Held(Modified(s, found, c, latest, ticks).desk, k)
                + Count(Modified(s, found, c, latest, ticks).released, k) == Held(s, k)
  {
    if found.Some? && found.value in s.orders && Amend(s.orders[found.value], c).Some? {
      AmendKeeps(s, found.value, c);
      if latest.Some? { ObservedConserves(Amended(s, found.value, Amend(s.orders[found.value], c).value, c),
        found.value, latest.value, ticks, k); }
    }
  }

  lemma ObservedAllConserves(s: Desk, keys: seq<Key>, e: MarketEvent, ticks: TickTable, k: Key)
    requires Orderly(s) && Distinct(keys) && forall j :: j in keys ==> j in s.orders
    ensures Held(ObservedAll(s, keys, e, ticks).desk, k) + Count(ObservedAll(s, keys, e, ticks).released, k) ==
                Held(s, k)
  {
    ObservedAllAt(s, keys, e, ticks, k);
    var after := ObservedAll(s, keys, e, ticks).desk;
    assert k in after.orders <==> SlotOf(after, k).order.Some?;
    if k in keys {
      ObservedConserves(s, k, e, ticks, k);
      ReleaseCounts(s, k, e, ticks);
      assert k in Observed(s, k, e, ticks).desk.orders <==> SlotOf(Observed(s, k, e, ticks).desk, k).order.Some?;
    } else {
      assert k in s.orders <==> SlotOf(s, k).order.Some?;
    }
  }

  lemma HandleConserves(s: Desk, c: Command, k: Key)
    requires Orderly(s) && Visits(s, c)
    ensures Held(Handle(s, c).desk, k) + Count(Handle(s, c).released, k) + Cancels(s, c, k) + Replaces(s, c, k)
         == Held(s, k) + if Accepts(c, k) then 1 else 0
  {
    match c
    case Submitting(o, latest, ticks) => if o.Valid() && latest.Some? { LookKeeps(s, o.At(), o, latest.value, ticks); }
    case Observing(e, keys, ticks) => ObservedAllConserves(s, keys, e, ticks, k);
    case Cancelling(found) =>
    case Modifying(found, change, latest, ticks) => ModifiedConserves(s, found, change, latest, ticks, k);
  }

  ghost function Submissions(cs: seq<Command>, k: Key): nat {
    if cs == [] then 0 else Submissions(cs[..|cs| - 1], k) + if Accepts(cs[|cs| - 1], k) then 1 else 0
  }

  ghost function Releases(cs: seq<Command>, k: Key): nat {
    if cs == [] then 0
    else Releases(cs[..|cs| - 1], k) + Count(Handle(Run(cs[..|cs| - 1]), cs[|cs| - 1]).released, k)
  }

  ghost function Cancellations(cs: seq<Command>, k: Key): nat {
    if cs == [] then 0 else Cancellations(cs[..|cs| - 1], k) + Cancels(Run(cs[..|cs| - 1]), cs[|cs| - 1], k)
  }

  ghost function Replacements(cs: seq<Command>, k: Key): nat {
    if cs == [] then 0 else Replacements(cs[..|cs| - 1], k) + Replaces(Run(cs[..|cs| - 1]), cs[|cs| - 1], k)
  }

  /** Every submission ends in exactly one release, cancel or replacement, or is still held. */
  lemma {:induction false} SubmissionsConserved(cs: seq<Command>, k: Key)
    requires Visited(cs)
    ensures Held(Run(cs), k) + Releases(cs, k) + Cancellations(cs, k) + Replacements(cs, k) == Submissions(cs, k)
  {
    if cs != [] {
      var before := cs[..|cs| - 1];
      SubmissionsConserved(before, k);
      RunOrderly(before);
      HandleConserves(Run(before), cs[|cs| - 1], k);
    }
  }

  /** An order submitted once and cancelled is never released, before or after. */
  lemma CancelledStaysCancelled(cs: seq<Command>, k: Key)
    requires Visited(cs) && Submissions(cs, k) == 1 && 0 < Cancellations(cs, k)
    ensures Releases(cs, k) == 0 && k !in Run(cs).orders
  {
    SubmissionsConserved(cs, k);
  }

  // ----- The trail of one order over a run -----

  function Prices(o: Submit, e: MarketEvent, ticks: TickTable): seq<Sighting> {
    match EmulationPrice(o, e)
    case None => []
    case Some(p) => [Sighting(p, ticks)]
  }

  function Latest(o: Submit, latest: Option<MarketEvent>, ticks: TickTable): seq<Sighting> {
    if latest.Some? then Prices(o, latest.value, ticks) else []
  }

  /** The sightings of the order under `k` since it was submitted or last given new trailing terms. */
  ghost function Seen(cs: seq<Command>, k: Key): seq<Sighting> {
    if cs == [] then []
    else Sees(Seen(cs[..|cs| - 1], k), Run(cs[..|cs| - 1]), cs[|cs| - 1], k)
  }

  ghost function Sees(before: seq<Sighting>, s: Desk, c: Command, k: Key): seq<Sighting> {
    match c
    case Submitting(o, latest, ticks) =>
      if Accepts(c, k) && TakeIn(s, o, latest, ticks).released == [] then Latest(o, latest, ticks) else before
    case Observing(e, keys, ticks) =>
      if e.Valid() && k in keys && k in s.orders then before + Prices(s.orders[k], e, ticks) else before
    case Cancelling(_) => before
    case Modifying(found, change, latest, ticks) =>
      if found != Some(k) || k !in s.orders || Amend(s.orders[k], change).None? then before
      else (if change.Retrails() then [] else before) + Latest(Amend(s.orders[k], change).value, latest, ticks)
  }

  /** The slot of a trailing order agrees with what it has seen. */
  ghost function Trails(slot: Slot, ps: seq<Sighting>): Judgement {
    if slot.order.Some? && slot.order.value.kind.IsTrailing() then Follows(slot.order.value, slot.extreme, ps)
      else Faithful
  }

  /** A submission that an extreme left under its key does not disturb, nor does it disturb the order held there. */
  predicate Clean(s: Desk, o: Submit, latest: Option<MarketEvent>) {
    var k := o.At();
    if k !in s.trailing then true
    else if o.kind.IsTrailing() then
      latest.Some? && EmulationPrice(o, latest.value).Some?
      && var p := EmulationPrice(o, latest.value).value; Activates(o, p) && Better(o.side, s.trailing[k], p) == p
    else !(latest.Some? && Fires(o, latest.value) && k in s.orders && s.orders[k].kind.IsTrailing())
  }

  /** Every submission under the key is clean; one under a key that is not held always is. */
  ghost predicate Fresh(cs: seq<Command>, k: Key) {
    cs == [] || (Fresh(cs[..|cs| - 1], k) && (Accepts(cs[|cs| - 1], k) ==>
                   Clean(Run(cs[..|cs| - 1]), cs[|cs| - 1].order, cs[|cs| - 1].latest)))
  }

  lemma LookTrails(o: Submit, extreme: Option<real>, ps: seq<Sighting>, e: MarketEvent, ticks: TickTable, v: Verdict)
    requires o.Valid() && v == Evaluate(o, extreme, e, ticks) && !v.triggered
    requires Trails(Slot(Some(o), extreme), ps).Faithful?
    ensures Trails(Slot(Some(v.order), v.extreme), ps + Prices(o, e, ticks)).Faithful?
  {
    if o.kind.IsTrailing() {
      if EmulationPrice(o, e).Some? {
        var w := Sighting(EmulationPrice(o, e).value, ticks);
        EvaluateSound(o, extreme, e, w);
        EvaluateFollows(o, extreme, ps, w, v);
      } else {
        assert ps + [] == ps;
      }
    }
  }

  lemma VerdictKeeps(o: Submit, extreme: Option<real>, e: MarketEvent, ticks: TickTable)
    requires o.Valid()
    ensures var v := Evaluate(o, extreme, e, ticks); (v.updated || v.order == o) && (extreme.Some? ==> v.extreme.Some?)
  {
  }

  lemma ObservedTrails(s: Desk, k: Key, e: MarketEvent, ticks: TickTable, ps: seq<Sighting>)
    requires Orderly(s) && k in s.orders && Trails(SlotOf(s, k), ps).Faithful?
    ensures Trails(SlotOf(Observed(s, k, e, ticks).desk, k), ps + Prices(s.orders[k], e, ticks)).Faithful?
  {
    var v := s.Look(k, s.orders[k], e, ticks);
    VerdictKeeps(s.orders[k], s.Extreme(k), e, ticks);
    if !v.triggered {
      LookTrails(s.orders[k], s.Extreme(k), ps, e, ticks, v);
      assert SlotOf(Observed(s, k, e, ticks).desk, k) == Slot(Some(v.order), v.extreme);
    }
  }

  lemma NothingSeen(o: Submit)
    ensures Trails(Slot(Some(o), None), []).Faithful?
  {
  }

  // ----- Submissions -----

  /** A submission does what it would do under a key that never had an extreme: it is released exactly if its one price
      crosses, and if it is held, it agrees with what it has seen; the order it finds there is not disturbed. */
  ghost predicate TakenInRightly(s: Desk, o: Submit, latest: Option<MarketEvent>, ticks: TickTable, ps: seq<Sighting>) {
    var out := TakeIn(s, o, latest, ticks);
    && (o.kind.IsTrailing() ==> (out.released != [] <==> Crosses(o, Latest(o, latest, ticks))))
    && Trails(SlotOf(out.desk, o.At()), Sees(ps, s, Submitting(o, latest, ticks), o.At())).Faithful?
  }

  /** What a submission leaves behind. */
  lemma TakeInSlot(s: Desk, o: Submit, e: MarketEvent, ticks: TickTable)
    requires o.Valid() && !o.trigger.NoTrigger?
    ensures var v, out := s.Look(o.At(), o, e, ticks), TakeIn(s, o, Some(e), ticks);
            && (out.released != [] <==> v.triggered)
            && SlotOf(out.desk, o.At()) ==
                 (if v.triggered then Slot(SlotOf(s, o.At()).order, None) else Slot(Some(v.order), v.extreme))
  {
    VerdictKeeps(o, s.Extreme(o.At()), e, ticks);
  }

  lemma MovedFresh(o: Submit, extreme: Option<real>, p: real)
    requires !o.side.NoSide?
    ensures Moved(o, extreme, p) == Moved(o, None, p) <==>
              extreme.None? || (Activates(o, p) && Better(o.side, extreme.value, p) == p)
  {
  }

  lemma OneSighting(o: Submit, w: Sighting)
    requires !o.side.NoSide?
    ensures Since(o, [w]) == if Activates(o, w.price) then [w] else []
    ensures forall x :: IsPeak(o.side, x, Since(o, [w])) <==> Activates(o, w.price) && x == w.price
  {
    assert [w][1..] == [];
    PeakOfOne(o.side, w);
    forall x | IsPeak(o.side, x, [w]) ensures x == w.price { PeakUnique(o.side, x, w.price, [w]); }
  }

  /** A price never reaches the trigger that it sets itself. */
  lemma NoSelfCrossing(o: Submit, w: Sighting)
    requires o.Valid() && o.kind.IsTrailing() && 0.0 < w.price
    ensures !Crosses(o, [w])
  {
    OneSighting(o, w);
    OffsetPositive(o, w.price, w.ticks);
  }

  lemma OffsetPositive(o: Submit, x: real, ticks: TickTable)
    requires 0.0 < o.offset && 0.0 < x
    ensures OffsetPrice(o, x, ticks).Some? ==> 0.0 < OffsetPrice(o, x, ticks).value
  {
    assert 0.0 < x * o.offset;
    if o.Watches() in ticks { assert 0.0 < o.offset * ticks[o.Watches()]; }
  }

  /** On one sighting the verdict agrees with it exactly when the extreme it started from made no difference. */
  lemma OneSightingFollows(o: Submit, extreme: Option<real>, w: Sighting, v: Verdict)
    requires !o.side.NoSide? && Sound(o, extreme, w, v).Faithful? && !v.triggered
    ensures Follows(v.order, v.extreme, [w]).Faithful? ==> v.extreme == Moved(o, None, w.price)
    ensures v.extreme == Moved(o, None, w.price) ==> Follows(v.order, v.extreme, [w]).Faithful?
  {
    OneSighting(o, w);
    SinceSame(o, v.order, [w]);
    forall n | 0 < n <= 1 ensures [w][..n] == [w] { }
    CrossesSame(o, v.order, [w]);
  }

  lemma TrailingTakenIn(s: Desk, o: Submit, e: MarketEvent, ticks: TickTable, ps: seq<Sighting>)
    requires o.Valid() && !o.trigger.NoTrigger? && o.kind.IsTrailing() && e.Valid() && EmulationPrice(o, e).Some?
    requires Trails(SlotOf(s, o.At()), ps).Faithful?
    ensures TakenInRightly(s, o, Some(e), ticks, ps) <==> Clean(s, o, Some(e))
  {
    var k, w := o.At(), Sighting(EmulationPrice(o, e).value, ticks);
    var extreme, v := s.Extreme(k), s.Look(k, o, e, ticks);
    PricePositive(o, e);
    EvaluateSound(o, extreme, e, w);
    TakeInSlot(s, o, e, ticks);
    NoSelfCrossing(o, w);
    MovedFresh(o, extreme, w.price);
    if v.triggered {
      SelfCrossing(o, extreme, w, v);
    } else {
      OneSightingFollows(o, extreme, w, v);
    }
  }

  lemma SelfCrossing(o: Submit, extreme: Option<real>, w: Sighting, v: Verdict)
    requires o.Valid() && o.kind.IsTrailing() && 0.0 < w.price && Sound(o, extreme, w, v).Faithful? && v.triggered
    ensures v.extreme != Moved(o, None, w.price)
  {
    OffsetPositive(o, w.price, w.ticks);
  }

  lemma PricePositive(o: Submit, e: MarketEvent)
    requires e.Valid() && EmulationPrice(o, e).Some?
    ensures 0.0 < EmulationPrice(o, e).value
  {
  }

  /** A submission is taken in rightly exactly when it is clean; the extreme left under a key disturbs all others. */
  lemma ReplacementTrails(s: Desk, o: Submit, latest: Option<MarketEvent>, ticks: TickTable, ps: seq<Sighting>)
    requires Orderly(s) && o.Valid() && !o.trigger.NoTrigger? && (latest.Some? ==> latest.value.Valid())
    requires Trails(SlotOf(s, o.At()), ps).Faithful?
    ensures TakenInRightly(s, o, latest, ticks, ps) <==> Clean(s, o, latest)
  {
    if o.kind.IsTrailing() && Latest(o, latest, ticks) != [] {
      TrailingTakenIn(s, o, latest.value, ticks, ps);
    } else {
      UnpricedTakenIn(s, o, latest, ticks, ps);
    }
  }

  lemma UnpricedTakenIn(s: Desk, o: Submit, latest: Option<MarketEvent>, ticks: TickTable, ps: seq<Sighting>)
    requires Orderly(s) && o.Valid() && !o.trigger.NoTrigger? && Trails(SlotOf(s, o.At()), ps).Faithful?
    requires o.kind.IsTrailing() ==> Latest(o, latest, ticks) == []
    ensures TakenInRightly(s, o, latest, ticks, ps) <==> Clean(s, o, latest)
  {
    NothingSeen(o);
    if latest.Some? { TakeInSlot(s, o, latest.value, ticks); }
  }

  lemma AmendTrails(s: Desk, k: Key, c: Change, ps: seq<Sighting>)
    requires Orderly(s) && k in s.orders && Amend(s.orders[k], c).Some? && Trails(SlotOf(s, k), ps).Faithful?
    ensures Trails(SlotOf(Amended(s, k, Amend(s.orders[k], c).value, c), k), if c.Retrails() then [] else ps).Faithful?
  {
    var o, next := s.orders[k], Amend(s.orders[k], c).value;
    if c.Retrails() {
      NothingSeen(next);
      assert SlotOf(Amended(s, k, next, c), k) == Slot(Some(next), None);
    } else {
      SinceSame(o, next, ps);
      forall n | 0 < n <= |ps| ensures Crosses(o, ps[..n]) <==> Crosses(next, ps[..n]) {
        CrossesSame(o, next, ps[..n]);
      }
      assert SlotOf(Amended(s, k, next, c), k) == Slot(Some(next), s.Extreme(k));
    }
  }

  lemma ModifiedTrails(s: Desk, k: Key, c: Change, latest: Option<MarketEvent>, ticks: TickTable, ps: seq<Sighting>)
    requires Orderly(s) && k in s.orders && Amend(s.orders[k], c).Some? && Trails(SlotOf(s, k), ps).Faithful?
    ensures Trails(SlotOf(Modified(s, Some(k), c, latest, ticks).desk, k),
                   (if c.Retrails() then [] else ps) + Latest(Amend(s.orders[k], c).value, latest, ticks)).Faithful?
  {
    var next, kept := Amend(s.orders[k], c).value, if c.Retrails() then [] else ps;
    AmendTrails(s, k, c, ps);
    AmendKeeps(s, k, c);
    if latest.Some? {
      ObservedTrails(Amended(s, k, next, c), k, latest.value, ticks, kept);
    } else {
      assert kept + [] == kept;
    }
  }

  lemma HandleTrails(s: Desk, c: Command, k: Key, ps: seq<Sighting>)
    requires Orderly(s) && Visits(s, c) && Trails(SlotOf(s, k), ps).Faithful?
    requires Accepts(c, k) ==> Clean(s, c.order, c.latest)
    ensures Trails(SlotOf(Handle(s, c).desk, k), Sees(ps, s, c, k)).Faithful?
  {
    match c
    case Submitting(o, latest, ticks) =>
      if Accepts(c, k) { ReplacementTrails(s, o, latest, ticks, ps); } else { TakeInElsewhere(s, o, latest, ticks, k); }
    case Observing(e, keys, ticks) =>
      ObservedAllAt(s, keys, e, ticks, k);
      if k in keys { ObservedTrails(s, k, e, ticks, ps); }
    case Cancelling(found) =>
    case Modifying(found, change, latest, ticks) =>
      if found.Some? && found.value in s.orders && Amend(s.orders[found.value], change).Some? {
        if found.value == k {
          ModifiedTrails(s, k, change, latest, ticks, ps);
        } else {
          ModifiedElsewhere(s, found.value, change, latest, ticks, k);
        }
      }
  }

  lemma TakeInElsewhere(s: Desk, o: Submit, latest: Option<MarketEvent>, ticks: TickTable, k: Key)
    requires k != o.At() || !o.Valid() || o.trigger.NoTrigger?
    ensures SlotOf(TakeIn(s, o, latest, ticks).desk, k) == SlotOf(s, k)
  {
  }

  lemma ModifiedElsewhere(s: Desk, j: Key, c: Change, latest: Option<MarketEvent>, ticks: TickTable, k: Key)
    requires Orderly(s) && j in s.orders && Amend(s.orders[j], c).Some? && j != k
    ensures SlotOf(Modified(s, Some(j), c, latest, ticks).desk, k) == SlotOf(s, k)
    ensures Count(Modified(s, Some(j), c, latest, ticks).released, k) == 0
  {
    AmendKeeps(s, j, c);
    if latest.Some? { ObservedElsewhere(Amended(s, j, Amend(s.orders[j], c).value, c), j, latest.value, ticks, k); }
  }

  /** Over any run a held trailing order's extreme is the best price since activation, its trigger hangs on it, and no
      price has crossed it. */
  lemma {:induction false} RunTrails(cs: seq<Command>, k: Key)
    requires Visited(cs) && Fresh(cs, k)
    ensures Trails(SlotOf(Run(cs), k), Seen(cs, k)).Faithful?
  {
    if cs != [] {
      var before := cs[..|cs| - 1];
      RunTrails(before, k);
      RunOrderly(before);
      HandleTrails(Run(before), cs[|cs| - 1], k, Seen(before, k));
    }
  }

  // ----- Releases -----

  /** The trailing order that a command judges under a key, and all it has seen including the new price. */
  datatype Judged = Judged(order: Submit, sightings: seq<Sighting>)

  ghost function Judges(s: Desk, c: Command, k: Key, ps: seq<Sighting>): Option<Judged> {
    match c
    case Submitting(o, latest, ticks) =>
      if Accepts(c, k) && Latest(o, latest, ticks) != [] then Some(Judged(o, Latest(o, latest, ticks))) else None
    case Observing(e, keys, ticks) =>
      if e.Valid() && k in keys && k in s.orders && Prices(s.orders[k], e, ticks) != []
      then Some(Judged(s.orders[k], ps + Prices(s.orders[k], e, ticks))) else None
    case Cancelling(_) => None
    case Modifying(found, change, latest, ticks) =>
      if found != Some(k) || k !in s.orders || Amend(s.orders[k], change).None? then None
      else
        var next := Amend(s.orders[k], change).value;
        if Latest(next, latest, ticks) == [] then None
        else Some(Judged(next, (if change.Retrails() then [] else ps) + Latest(next, latest, ticks)))
  }

  lemma ObservedReleases(s: Desk, k: Key, e: MarketEvent, ticks: TickTable, ps: seq<Sighting>)
    requires Orderly(s) && k in s.orders && s.orders[k].kind.IsTrailing() && Trails(SlotOf(s, k), ps).Faithful?
    requires Prices(s.orders[k], e, ticks) != []
    ensures |Observed(s, k, e, ticks).released| == if Crosses(s.orders[k], ps + Prices(s.orders[k], e, ticks)) then 1
                else 0
  {
    var o, w := s.orders[k], Prices(s.orders[k], e, ticks)[0];
    EvaluateSound(o, s.Extreme(k), e, w);
    TriggersAtCrossing(o, s.Extreme(k), ps, w, s.Look(k, o, e, ticks));
  }

  lemma TakeInReleases(s: Desk, o: Submit, latest: Option<MarketEvent>, ticks: TickTable, ps: seq<Sighting>)
    requires Orderly(s) && o.Valid() && !o.trigger.NoTrigger? && o.kind.IsTrailing() && Clean(s, o, latest)
    requires (latest.Some? ==> latest.value.Valid()) && Trails(SlotOf(s, o.At()), ps).Faithful?
    ensures Count(TakeIn(s, o, latest, ticks).released, o.At()) == if Crosses(o, Latest(o, latest, ticks)) then 1 else 0
  {
    ReplacementTrails(s, o, latest, ticks, ps);
    if latest.Some? { LookKeeps(s, o.At(), o, latest.value, ticks); }
  }

  lemma ModifiedReleases(s: Desk, k: Key, c: Change, latest: Option<MarketEvent>, ticks: TickTable, ps: seq<Sighting>)
    requires Orderly(s) && k in s.orders && Amend(s.orders[k], c).Some? && Trails(SlotOf(s, k), ps).Faithful?
    requires s.orders[k].kind.IsTrailing() && Latest(Amend(s.orders[k], c).value, latest, ticks) != []
    ensures var next := Amend(s.orders[k], c).value;
            Count(Modified(s, Some(k), c, latest, ticks).released, k) ==
              if Crosses(next, (if c.Retrails() then [] else ps) + Latest(next, latest, ticks)) then 1 else 0
  {
    var amended := Amended(s, k, Amend(s.orders[k], c).value, c);
    AmendTrails(s, k, c, ps);
    AmendKeeps(s, k, c);
    ObservedReleases(amended, k, latest.value, ticks, if c.Retrails() then [] else ps);
    ReleaseCounts(amended, k, latest.value, ticks);
  }

  lemma JudgedReleases(s: Desk, c: Command, k: Key, ps: seq<Sighting>)
    requires Orderly(s) && Visits(s, c) && Trails(SlotOf(s, k), ps).Faithful?
                 && (Accepts(c, k) ==> Clean(s, c.order, c.latest))
    requires Judges(s, c, k, ps).Some? && Judges(s, c, k, ps).value.order.kind.IsTrailing()
    ensures var j := Judges(s, c, k, ps).value; Count(Handle(s, c).released, k) == if Crosses(j.order, j.sightings)
                then 1 else 0
  {
    match c
    case Submitting(o, latest, ticks) => TakeInReleases(s, o, latest, ticks, ps);
    case Observing(e, keys, ticks) =>
      ObservedAllAt(s, keys, e, ticks, k);
      ObservedReleases(s, k, e, ticks, ps);
    case Modifying(found, change, latest, ticks) => ModifiedReleases(s, k, change, latest, ticks, ps);
  }

  /** A trailing order is released, by an event, a modification or its own submission, exactly when the price it is then
      judged at is the first to cross. */
  lemma ReleasedAtFirstCrossing(cs: seq<Command>, c: Command, k: Key)
    requires Visited(cs + [c]) && Fresh(cs + [c], k)
    requires var j := Judges(Run(cs), c, k, Seen(cs, k)); j.Some? && j.value.order.kind.IsTrailing()
    ensures var j := Judges(Run(cs), c, k, Seen(cs, k)).value;
            && (forall n :: 0 < n < |j.sightings| ==> !Crosses(j.order, j.sightings[..n]))
            && Count(Handle(Run(cs), c).released, k) == if Crosses(j.order, j.sightings) then 1 else 0
  {
    assert (cs + [c])[..|cs|] == cs;
    RunOrderly(cs);
    RunTrails(cs, k);
    JudgedReleases(Run(cs), c, k, Seen(cs, k));
    EarlierUncrossed(Run(cs), c, k, Seen(cs, k));
  }

  lemma EarlierUncrossed(s: Desk, c: Command, k: Key, ps: seq<Sighting>)
    requires Orderly(s) && Trails(SlotOf(s, k), ps).Faithful?
    requires Judges(s, c, k, ps).Some? && Judges(s, c, k, ps).value.order.kind.IsTrailing()
    ensures var j := Judges(s, c, k, ps).value; forall n :: 0 < n < |j.sightings| ==>
                !Crosses(j.order, j.sightings[..n])
  {
    var j := Judges(s, c, k, ps).value;
    forall n | 0 < n < |j.sightings| ensures !Crosses(j.order, j.sightings[..n]) {
      assert j.sightings[..n] == ps[..n];
      CrossesSame(s.orders[k], j.order, ps[..n]);
    }
  }

  // ----- The ratchet -----

  function Scaled(x: real, points: real): real {
    x * points / 10000.0
  }

  lemma PortionMoves(x: real, y: real, points: real)
    ensures Portion(y, points) - Portion(x, points) == Scaled(y - x, points)
  {
  }

  lemma ScaledSigns(x: real, points: real)
    requires 0.0 <= x && 0.0 < points
    ensures 0.0 <= Scaled(x, points) && (x < Scaled(x, points) <==> 0.0 < x && 10000.0 < points)
  {
    if 0.0 < x {
      assert x * points == 10000.0 * Scaled(x, points);
      if 10000.0 < points { assert x * 10000.0 < x * points; } else { assert x * points <= x * 10000.0; }
    }
  }

  /** How much better `y` is than `x`. */
  function Improvement(side: OrderSide, x: real, y: real): real {
    if side.Sell? then y - x else x - y
  }

  /** A trigger moves backwards: down for a sell, up for a buy. */
  predicate Backwards(side: OrderSide, from: real, to: real) {
    Improvement(side, from, to) < 0.0
  }

  /** As the extreme goes from `x` to `y`, a sell trailing by more than all of the price falls behind, and so does an
      order trailing by ticks when its tick grows by more than the extreme makes up for. */
  predicate Retreats(o: Submit, x: real, t: TickTable, y: real, t': TickTable) {
    match o.offsetType
    case PriceOffset => false
    case BasisPoints => o.side.Sell? && 10000.0 < o.offset && x < y
    case Ticks => o.Watches() in t && o.Watches() in t'
                  && Improvement(o.side, x, y) < Ticked(o.offset, t'[o.Watches()]) - Ticked(o.offset, t[o.Watches()])
  }

  lemma LevelRatchets(o: Submit, x: real, t: TickTable, y: real, t': TickTable)
    requires 0.0 < o.offset && !o.side.NoSide? && Better(o.side, x, y) == y && Level(o, x, t).Some?
                 && Level(o, y, t').Some?
    ensures Backwards(o.side, Level(o, x, t).value, Level(o, y, t').value) <==> Retreats(o, x, t, y, t')
  {
    if o.offsetType.BasisPoints? {
      PortionMoves(x, y, o.offset);
      PortionMoves(y, x, o.offset);
      if o.side.Sell? { ScaledSigns(y - x, o.offset); } else { ScaledSigns(x - y, o.offset); }
    }
  }

  /** A command that neither submits under the key nor gives its order new trailing terms. */
  predicate Undisturbed(c: Command, k: Key) {
    !Accepts(c, k) && !(c.Modifying? && c.found == Some(k) && c.change.Retrails())
  }

  lemma ObservedTerms(s: Desk, k: Key, e: MarketEvent, ticks: TickTable)
    requires Orderly(s) && k in s.orders
    ensures k in Observed(s, k, e, ticks).desk.orders ==>
                SameTerms(s.orders[k], Observed(s, k, e, ticks).desk.orders[k])
  {
    LookKeeps(s, k, s.orders[k], e, ticks);
  }

  lemma HandleTerms(s: Desk, c: Command, k: Key)
    requires Orderly(s) && Visits(s, c) && Undisturbed(c, k) && k in s.orders && k in Handle(s, c).desk.orders
    ensures SameTerms(s.orders[k], Handle(s, c).desk.orders[k])
  {
    match c
    case Submitting(o, latest, ticks) =>
    case Observing(e, keys, ticks) =>
      ObservedAllAt(s, keys, e, ticks, k);
      assert SlotOf(Handle(s, c).desk, k).order == Some(Handle(s, c).desk.orders[k]);
      if k in keys { ObservedTerms(s, k, e, ticks); }
    case Cancelling(found) =>
    case Modifying(found, change, latest, ticks) =>
      if found.Some? && found.value in s.orders && Amend(s.orders[found.value], change).Some? {
        if found.value == k {
          AmendKeeps(s, k, change);
          if latest.Some? { ObservedTerms(Amended(s, k, Amend(s.orders[k], change).value, change), k, latest.value,
            ticks); }
        } else {
          ModifiedElsewhere(s, found.value, change, latest, ticks, k);
          assert SlotOf(Handle(s, c).desk, k).order == Some(Handle(s, c).desk.orders[k]);
        }
      }
  }

  function Extended(ps: seq<Sighting>, w: Sighting): seq<Sighting> {
    ps + [w]
  }

  lemma SeesMore(ps: seq<Sighting>, s: Desk, c: Command, k: Key)
    requires Undisturbed(c, k)
    ensures Sees(ps, s, c, k) == ps || exists w :: Sees(ps, s, c, k) == Extended(ps, w)
  {
    match c
    case Submitting(o, latest, ticks) =>
    case Observing(e, keys, ticks) =>
      if e.Valid() && k in keys && k in s.orders && Prices(s.orders[k], e, ticks) != [] {
        assert Sees(ps, s, c, k) == Extended(ps, Prices(s.orders[k], e, ticks)[0]);
      }
    case Cancelling(found) =>
    case Modifying(found, change, latest, ticks) =>
      if found == Some(k) && k in s.orders && Amend(s.orders[k], change).Some? {
        var more := Latest(Amend(s.orders[k], change).value, latest, ticks);
        if more != [] { assert Sees(ps, s, c, k) == Extended(ps, more[0]); }
      }
  }

  /** An order that trails on keeps an extreme at least as good. */
  lemma ExtremeImproves(o: Submit, x: real, ps: seq<Sighting>, o': Submit, x': real, ps': seq<Sighting>)
    requires !o.side.NoSide? && SameTerms(o, o') && (ps' == ps || exists w :: ps' == Extended(ps, w))
    requires IsPeak(o.side, x, Since(o, ps)) && IsPeak(o.side, x', Since(o', ps'))
    ensures Better(o.side, x, x') == x'
  {
    SinceSame(o, o', ps');
    if ps' == ps {
      PeakUnique(o.side, x, x', Since(o, ps));
    } else {
      var w :| ps' == Extended(ps, w);
      SinceExtends(o, ps, w);
      PeakExtends(o.side, x, Since(o, ps), w);
      PeakUnique(o.side, Better(o.side, x, w.price), x', Since(o, ps'));
    }
  }

  lemma Ratcheted(o: Submit, extreme: Option<real>, ps: seq<Sighting>, o': Submit, extreme': Option<real>,
      ps': seq<Sighting>)
    requires Follows(o, extreme, ps).Faithful? && Follows(o', extreme', ps').Faithful? && extreme.Some?
    requires !o.side.NoSide? && 0.0 < o.offset && SameTerms(o, o') && (ps' == ps || exists w :: ps' == Extended(ps, w))
    ensures extreme'.Some? && Better(o.side, extreme.value, extreme'.value) == extreme'.value
    ensures LastLevel(o, extreme.value, ps).Some? && LastLevel(o, extreme'.value, ps').Some? ==>
              (Backwards(o.side, o.stop, o'.stop) <==>
                 Retreats(o, extreme.value, LastTicks(ps), extreme'.value, LastTicks(ps')))
  {
    SinceSame(o, o', ps');
    if w :| ps' == Extended(ps, w) { SinceExtends(o, ps, w); }
    ExtremeImproves(o, extreme.value, ps, o', extreme'.value, ps');
    if LastLevel(o, extreme.value, ps).Some? && LastLevel(o, extreme'.value, ps').Some? {
      LevelRatchets(o, extreme.value, LastTicks(ps), extreme'.value, LastTicks(ps'));
      assert LastLevel(o', extreme'.value, ps') == LastLevel(o, extreme'.value, ps');
    }
  }

  /** Where the trigger hangs, if there is an extreme and the offset could be priced at the last sighting; it always
      can, but in ticks of an instrument whose tick is not known. */
  function Placed(o: Submit, extreme: Option<real>, ps: seq<Sighting>): Option<real> {
    if extreme.Some? then LastLevel(o, extreme.value, ps) else None
  }

  lemma ObservedStop(s: Desk, k: Key, e: MarketEvent, ticks: TickTable, ps: seq<Sighting>)
    requires Orderly(s) && k in s.orders && s.orders[k].kind.IsTrailing()
    ensures var t := Observed(s, k, e, ticks).desk;
            k in t.orders && t.orders[k].stop != s.orders[k].stop ==>
              Placed(s.orders[k], t.Extreme(k), ps + Prices(s.orders[k], e, ticks)).Some?
  {
  }

  lemma ModifiedStop(s: Desk, k: Key, c: Change, latest: Option<MarketEvent>, ticks: TickTable, ps: seq<Sighting>)
    requires Orderly(s) && k in s.orders && s.orders[k].kind.IsTrailing() && !c.Retrails()
    requires Amend(s.orders[k], c).Some? && k in Modified(s, Some(k), c, latest, ticks).desk.orders
    ensures var t, next := Modified(s, Some(k), c, latest, ticks).desk, Amend(s.orders[k], c).value;
            t.orders[k].stop != s.orders[k].stop ==>
              Placed(s.orders[k], t.Extreme(k), ps + Latest(next, latest, ticks)).Some?
  {
    var next := Amend(s.orders[k], c).value;
    AmendKeeps(s, k, c);
    if latest.Some? { ObservedStop(Amended(s, k, next, c), k, latest.value, ticks, ps); }
  }

  /** A trigger only moves to where it then hangs. */
  lemma HandleStop(s: Desk, c: Command, k: Key, ps: seq<Sighting>)
    requires Orderly(s) && Visits(s, c) && Undisturbed(c, k) && k in s.orders && s.orders[k].kind.IsTrailing()
    requires k in Handle(s, c).desk.orders
    ensures var t := Handle(s, c).desk;
            t.orders[k].stop != s.orders[k].stop ==> Placed(s.orders[k], t.Extreme(k), Sees(ps, s, c, k)).Some?
  {
    match c
    case Submitting(o, latest, ticks) =>
    case Observing(e, keys, ticks) =>
      ObservedAllAt(s, keys, e, ticks, k);
      assert SlotOf(Handle(s, c).desk, k).order == Some(Handle(s, c).desk.orders[k]);
      if k in keys { ObservedStop(s, k, e, ticks, ps); }
    case Cancelling(found) =>
    case Modifying(found, change, latest, ticks) =>
      if found.Some? && found.value in s.orders && Amend(s.orders[found.value], change).Some? {
        if found.value == k {
          ModifiedStop(s, k, change, latest, ticks, ps);
        } else {
          ModifiedElsewhere(s, found.value, change, latest, ticks, k);
          assert SlotOf(Handle(s, c).desk, k).order == Some(Handle(s, c).desk.orders[k]);
        }
      }
  }

  /** Where one step takes the trigger of an order that keeps its terms. */
  ghost predicate MovesRightly(o: Submit, extreme: Option<real>, ps: seq<Sighting>, o': Submit, extreme': Option<real>,
      ps': seq<Sighting>) {
    match Placed(o, extreme', ps')
    case None => o'.stop == o.stop
    case Some(level) =>
      Backwards(o.side, o.stop, o'.stop) <==>
        if Placed(o, extreme, ps).None? then Backwards(o.side, o.stop, level)
        else Retreats(o, extreme.value, LastTicks(ps), extreme'.value, LastTicks(ps'))
  }

  lemma StepMoves(o: Submit, extreme: Option<real>, ps: seq<Sighting>, o': Submit, extreme': Option<real>,
      ps': seq<Sighting>)
    requires Follows(o, extreme, ps).Faithful? && Follows(o', extreme', ps').Faithful?
    requires !o.side.NoSide? && 0.0 < o.offset && SameTerms(o, o') && (ps' == ps || exists w :: ps' == Extended(ps, w))
    requires o'.stop != o.stop ==> Placed(o, extreme', ps').Some?
    ensures MovesRightly(o, extreme, ps, o', extreme', ps')
  {
    if extreme'.Some? { assert LastLevel(o', extreme'.value, ps') == LastLevel(o, extreme'.value, ps'); }
    if extreme.Some? { Ratcheted(o, extreme, ps, o', extreme', ps'); }
  }

  /** Between modifications the extreme never gets worse. The trigger stays where it is as long as it does not hang on
      the extreme, goes to its level when it comes to do so, and from there moves backwards exactly in the cases of
      `Retreats`. */
  lemma TriggerRatchets(cs: seq<Command>, c: Command, k: Key)
    requires Visited(cs + [c]) && Fresh(cs + [c], k) && Undisturbed(c, k)
    requires k in Run(cs).orders && k in Run(cs + [c]).orders && Run(cs).orders[k].kind.IsTrailing()
    ensures var s, t := Run(cs), Run(cs + [c]);
            k in s.trailing ==>
              k in t.trailing && Better(s.orders[k].side, s.trailing[k], t.trailing[k]) == t.trailing[k]
    ensures var s, t := Run(cs), Run(cs + [c]);
            MovesRightly(s.orders[k], s.Extreme(k), Seen(cs, k), t.orders[k], t.Extreme(k), Seen(cs + [c], k))
  {
    assert (cs + [c])[..|cs|] == cs;
    var s, t, ps := Run(cs), Run(cs + [c]), Seen(cs, k);
    RunOrderly(cs);
    RunTrails(cs, k);
    RunTrails(cs + [c], k);
    HandleTerms(s, c, k);
    HandleStop(s, c, k, ps);
    SeesMore(ps, s, c, k);
    StepMoves(s.orders[k], s.Extreme(k), ps, t.orders[k], t.Extreme(k), Seen(cs + [c], k));
    if k in s.trailing { Ratcheted(s.orders[k], s.Extreme(k), ps, t.orders[k], t.Extreme(k), Seen(cs + [c], k)); }
  }

  // ----- Runs that show the conditions are needed -----

  function Stop(offset: real, offsetType: OffsetType): Submit {
    Submit(1, 1, 1, NO_ID, Sell, TrailingStopMarket, LastPrice, 1.0, 0.0, 0.0, 0.0, offset, offsetType, NO_ID, true)
  }

  lemma RunOne(cs: seq<Command>, c: Command, k: Key)
    requires Visited(cs) && Visits(Run(cs), c)
    ensures Visited(cs + [c]) && Run(cs + [c]) == Handle(Run(cs), c).desk
    ensures Seen(cs + [c], k) == Sees(Seen(cs, k), Run(cs), c, k)
    ensures Fresh(cs, k) && (Accepts(c, k) ==> Clean(Run(cs), c.order, c.latest)) ==> Fresh(cs + [c], k)
  {
    assert (cs + [c])[..|cs|] == cs;
  }

  /** A sell of `o`, its first price a trade at `p`. */
  function Submission(o: Submit, p: real): Command {
    Submitting(o, Some(Trade(1, p)), map[])
  }

  lemma Submits(o: Submit, p: real, level: real) returns (cs: seq<Command>)
    requires o.Valid() && o.kind.IsTrailing() && o.side.Sell? && o.trigger.LastPrice? && o.activation == 0.0 && 0.0 < p
    requires Level(o, p, map[]) == Some(level) && level < p
    ensures cs == [Submission(o, p)] && Visited(cs) && Fresh(cs, o.At())
    ensures Run(cs) == Desk(map[o.At() := o.(stop := level)], map[o.At() := p])
  {
    cs := [];
    assert Visited(cs) && Fresh(cs, o.At()) && Run(cs) == Desk(map[], map[]);
    RunOne(cs, Submission(o, p), o.At());
    FirstLook(o, p, level);
    cs := cs + [Submission(o, p)];
  }

  lemma FirstLook(o: Submit, p: real, level: real)
    requires o.Valid() && o.kind.IsTrailing() && o.side.Sell? && o.trigger.LastPrice? && o.activation == 0.0 && 0.0 < p
    requires Level(o, p, map[]) == Some(level) && level < p
    ensures TakeIn(Desk(map[], map[]), o, Some(Trade(1, p)), map[]).desk ==
              Desk(map[o.At() := o.(stop := level)], map[o.At() := p])
  {
    var v := Evaluate(o, None, Trade(1, p), map[]);
    EvaluateSound(o, None, Trade(1, p), Sighting(p, map[]));
    LookKeeps(Desk(map[], map[]), o.At(), o, Trade(1, p), map[]);
    assert v.extreme == Some(p) && v.order == o.(stop := level) && !v.triggered;
  }

  /** An order resubmitted under a key with an extreme of 100 sees its first price, 50, and is released although nothing
      crossed. */
  lemma ResubmissionReleasesWrongly()
    ensures exists cs, o: Submit :: Visited(cs + [Submission(o, 50.0)])
                && Count(Handle(Run(cs), Submission(o, 50.0)).released, o.At()) == 1
                            && !Crosses(o, [Sighting(50.0, map[])])
  {
    var o := Stop(1.0, PriceOffset);
    var cs := Submits(o, 100.0, 99.0);
    RunOne(cs, Submission(o, 50.0), o.At());
    NoSelfCrossing(o, Sighting(50.0, map[]));
    assert Run(cs).Look(o.At(), o, Trade(1, 50.0), map[]).triggered;
    assert Handle(Run(cs), Submission(o, 50.0)).released == [Transform(o.(stop := 99.0))];
  }

  /** Resubmitted with no price at all, it has an extreme before it has seen anything. */
  lemma ResubmissionKeepsExtreme()
    ensures exists cs, k :: Visited(cs) && Trails(SlotOf(Run(cs), k), Seen(cs, k)).Wrong?
  {
    var o := Stop(1.0, PriceOffset);
    var cs := Submits(o, 100.0, 99.0);
    var again := Submitting(o, None, map[]);
    RunOne(cs, again, o.At());
    RunTrails(cs, o.At());
    RunOrderly(cs);
    ReplacementTrails(Run(cs), o, None, map[], Seen(cs, o.At()));
    assert o.kind.IsTrailing() && Latest(o, None, map[]) == [] && TakeIn(Run(cs), o, None, map[]).released == [];
  }

  /** A sell that trails by 20000 basis points: as the price goes from 1 to 2 its trigger goes from -1 to -2. */
  lemma TriggerMovesBack()
    ensures exists cs, c, k :: Visited(cs + [c]) && Fresh(cs + [c], k) && Undisturbed(c, k)
              && k in Run(cs).orders && k in Run(cs + [c]).orders
              && Backwards(Run(cs).orders[k].side, Run(cs).orders[k].stop, Run(cs + [c]).orders[k].stop)
  {
    var o := Stop(20000.0, BasisPoints);
    var k := o.At();
    var cs := Submits(o, 1.0, -1.0);
    var c := Observing(Trade(1, 2.0), [k], map[]);
    RunOne(cs, c, k);
    var s := Run(cs);
    assert [k][..0] == [];
    assert ObservedAll(s, [k], Trade(1, 2.0), map[]).desk == Observed(s, k, Trade(1, 2.0), map[]).desk;
    assert Portion(2.0, 20000.0) == 4.0;
    assert Run(cs + [c]).orders[k].stop == -2.0;
  }

  /** A sell that trails by one tick with a trigger of 200, seen at 100 first without and then with its tick: the
      trigger stays at 200 and then falls to 99, although the extreme does not change. */
  lemma TriggerFallsToLevel()
    ensures exists cs, c, k :: Visited(cs + [c]) && Fresh(cs + [c], k) && Undisturbed(c, k)
              && k in Run(cs).orders && Run(cs).orders[k].stop == 200.0
              && k in Run(cs + [c]).orders && Run(cs + [c]).orders[k].stop == 99.0
              && Placed(Run(cs).orders[k], Run(cs).Extreme(k), Seen(cs, k)).None?
  {
    var o, ticks := Stop(1.0, Ticks).(stop := 200.0), map[1 := 1.0];
    var k, first := o.At(), Submission(o, 100.0);
    assert Visited([]) && Fresh([], k) && Run([]) == Desk(map[], map[]);
    RunOne([], first, k);
    var cs, s := [first], Desk(map[k := o], map[k := 100.0]);
    assert [] + [first] == cs && Run(cs) == s;
    var c := Observing(Trade(1, 100.0), [k], ticks);
    RunOne(cs, c, k);
    assert [k][..0] == [];
    assert ObservedAll(s, [k], Trade(1, 100.0), ticks).desk == Observed(s, k, Trade(1, 100.0), ticks).desk;
    assert Level(o, 100.0, ticks) == Some(99.0);
  }
}
