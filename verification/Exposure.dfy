/**
 One-updates-the-other lists: when a leg fills, every other open leg is cut by the same amount, so that the legs
 together never fill more than one of them was meant to.
 */
module Exposure {
  import opened Model
  import opened OrderCache
  import opened OrderLists
  import opened Fills
  import EM = ExecutionManager

  // ----- Carrying out the actions -----

  /** A change of quantity; refused on an order that is closed or closing, below what has filled, or if nothing
      changes. */
  function ApplyOrderModification(o: Order, quantity: real): Option<Order> {
    if !o.status.IsOpen() || o.status.PendingCancel? then None
    else if quantity <= 0.0 || quantity < o.filled || quantity == o.quantity then None
    else Some(o.(quantity := quantity, leaves := quantity - o.filled, status := Accepted))
  }

  function Resized(orders: Orders, r: Resize): Orders {
    var k := r.target.At();
    if k !in orders then orders
    else match ApplyOrderModification(orders[k], r.quantity)
      case None => orders
      case Some(o) => orders[k := o]
  }

  function CancelOrder(o: Order): Order {
    o.(status := Canceled, leaves := 0.0)
  }

  function Cancelled(orders: Orders, r: Reference): Orders {
    if r.At() in orders then orders[r.At() := CancelOrder(orders[r.At()])] else orders
  }

  function ResizeAll(orders: Orders, rs: seq<Resize>): Orders {
    if rs == [] then orders else Resized(ResizeAll(orders, rs[..|rs| - 1]), rs[|rs| - 1])
  }

  function CancelAll(orders: Orders, rs: seq<Reference>): Orders {
    if rs == [] then orders else Cancelled(CancelAll(orders, rs[..|rs| - 1]), rs[|rs| - 1])
  }

  function CarryOut(orders: Orders, a: Actions): Orders {
    CancelAll(ResizeAll(orders, a.resize), a.cancel)
  }

  // ----- The legs of a list -----

  /** No two orders of an account share a client or venue id, as the cache guarantees. */
  ghost predicate Unique(orders: Orders) {
    WellKeyed(orders) && forall a, j, k :: j in orders && k in orders ==> !SharesAlias(a, orders[j], orders[k])
  }

  predicate Leg(o: Order, list: Key) {
    InList(o, list) && o.client != NO_ID && o.contingency.Ouo?
  }

  /** `legs` are the cached orders that the list's members name, each once. */
  ghost predicate Lines(orders: Orders, members: seq<Id>, list: Key, legs: seq<Key>) {
    && (forall i :: 0 <= i < |legs| ==> legs[i] in orders && Leg(orders[legs[i]], list))
    && (forall i, j :: 0 <= i < j < |legs| ==> legs[i] != legs[j])
    && |members| == |legs|
    && (forall i :: 0 <= i < |legs| ==> members[i] == orders[legs[i]].client)
  }

  /** What the legs have filled together. */
  ghost function Total(orders: Orders, legs: seq<Key>): real {
    if legs == [] then 0.0
    else
      var k := legs[|legs| - 1];
      Total(orders, legs[..|legs| - 1]) + if k in orders then orders[k].filled else 0.0
  }

  /** An open leg has exactly the part of the exposure left to fill that the list has. */
  predicate Balanced(o: Order, left: real) {
    o.status.IsOpen() ==> !o.status.PendingCancel? && o.quantity == left + o.filled && 0.0 < left
  }

  ghost predicate AllBalanced(orders: Orders, legs: seq<Key>, left: real) {
    forall i :: 0 <= i < |legs| && legs[i] in orders ==> Balanced(orders[legs[i]], left)
  }

  /** While a leg is open the watermarks are what the legs have filled. */
  ghost predicate Marked(orders: Orders, l: Lists, legs: seq<Key>) {
    (exists i :: 0 <= i < |legs| && legs[i] in orders && orders[legs[i]].status.IsOpen())
    ==> forall i :: 0 <= i < |legs| && legs[i] in orders ==> l.Mark(legs[i]) == orders[legs[i]].filled
  }

  // ----- Siblings -----

  lemma ByClientIs(orders: Orders, k: Key)
    requires Unique(orders) && k in orders && orders[k].client != NO_ID
    ensures EM.ByClient(orders, Key(k.account, orders[k].client)) == Some(orders[k])
  {
    var name := Key(k.account, orders[k].client);
    assert Names(orders, ClientAlias, name, k);
    forall j | Names(orders, ClientAlias, name, j) ensures j == k {
      assert !SharesAlias(ClientAlias, orders[k], orders[j]); }
  }

  /** The siblings of a leg are the other open legs. */
  lemma {:induction false} OpenLegs(orders: Orders, members: seq<Id>, list: Key, legs: seq<Key>, o: Order, k: Key)
    requires Unique(orders) && Lines(orders, members, list, legs)
    requires o.account == list.account
    ensures (exists s :: s in Siblings(orders, o, members) && s.At() == k)
        <==> k in legs && orders[k].client != o.client && orders[k].status.IsOpen()
    ensures forall s :: s in Siblings(orders, o, members) ==> s.At() in legs && s == orders[s.At()] && s.status.IsOpen()
  {
    if members != [] {
      var n := |legs| - 1;
      OpenLegs(orders, members[..n], list, legs[..n], o, k);
      ByClientIs(orders, legs[n]);
      assert legs == legs[..n] + [legs[n]];
    }
  }

  // ----- What the actions do -----

  /** An open leg after a fill elsewhere of `x` has left the list `left` to fill. */
  function Trimmed(o: Order, x: real, left: real): Order {
    if left <= 0.0 then CancelOrder(o)
    else o.(quantity := o.quantity - x, leaves := o.quantity - x - o.filled, status := Accepted)
  }

  function Resizes(siblings: seq<Order>, x: real): seq<Resize> {
    seq(|siblings|, i requires 0 <= i < |siblings| => Resize(Refer(siblings[i]), siblings[i].quantity - x))
  }

  /** All siblings have the same part left, so a fill cancels all of them or resizes all of them. */
  lemma {:induction false} CutsAlike(siblings: seq<Order>, x: real, left: real)
    requires forall i :: 0 <= i < |siblings| ==>
                 siblings[i].status.IsOpen() && Balanced(siblings[i], left) && 0.0 <= siblings[i].filled
    requires 0.0 < x <= left
    ensures CutAll(siblings, x) == if x == left then Actions([], [], References(siblings))
                else Actions([], Resizes(siblings, x), [])
  {
    if siblings != [] {
      var before, last := siblings[..|siblings| - 1], siblings[|siblings| - 1];
      CutsAlike(before, x, left);
      assert References(siblings) == References(before) + [Refer(last)];
      assert Resizes(siblings, x) == Resizes(before, x) + [Resize(Refer(last), last.quantity - x)];
    }
  }

  ghost predicate Among(siblings: seq<Order>, k: Key) {
    exists i :: 0 <= i < |siblings| && siblings[i].At() == k
  }

  lemma {:induction false} CancelAllAt(orders: Orders, siblings: seq<Order>, k: Key)
    requires k in orders
    ensures var after := CancelAll(orders, References(siblings));
            k in after && after[k] == if Among(siblings, k) then CancelOrder(orders[k]) else orders[k]
  {
    if siblings != [] {
      var before, last := siblings[..|siblings| - 1], siblings[|siblings| - 1];
      assert References(siblings)[..|siblings| - 1] == References(before);
      CancelAllAt(orders, before, k);
      assert Among(siblings, k) <==> Among(before, k) || last.At() == k;
    }
  }

  lemma {:induction false} ResizeAllAt(orders: Orders, siblings: seq<Order>, x: real, left: real, k: Key)
    requires k in orders && 0.0 < x < left
    requires forall i :: 0 <= i < |siblings| && siblings[i].At() == k ==> siblings[i] == orders[k]
    requires orders[k].status.IsOpen() ==> Balanced(orders[k], left) && 0.0 <= orders[k].filled
    ensures var after := ResizeAll(orders, Resizes(siblings, x));
            k in after && after[k] == if Among(siblings, k)
              && orders[k].status.IsOpen() then Trimmed(orders[k], x, left - x) else orders[k]
  {
    if siblings != [] {
      var before, last := siblings[..|siblings| - 1], siblings[|siblings| - 1];
      assert Resizes(siblings, x)[..|siblings| - 1] == Resizes(before, x);
      ResizeAllAt(orders, before, x, left, k);
      assert Among(siblings, k) <==> Among(before, k) || last.At() == k;
    }
  }

  lemma {:induction false} SameKeys(orders: Orders, rs: seq<Resize>, cs: seq<Reference>)
    ensures ResizeAll(orders, rs).Keys == orders.Keys && CancelAll(orders, cs).Keys == orders.Keys
    decreases |rs| + |cs|
  {
    if rs != [] { SameKeys(orders, rs[..|rs| - 1], cs); }
    if cs != [] { SameKeys(orders, rs, cs[..|cs| - 1]); }
  }

  /** Carrying out the actions trims the other open legs and nothing else. */
  lemma CarryOutTrims(orders: Orders, members: seq<Id>, list: Key, legs: seq<Key>, o: Order, x: real, left: real,
      k: Key)
    requires Unique(orders) && Lines(orders, members, list, legs)
    requires o.account == list.account && 0.0 < x <= left
    requires forall i :: 0 <= i < |legs| && orders[legs[i]].client != o.client ==> Balanced(orders[legs[i]], left)
    requires k in orders
    ensures var after := CarryOut(orders, CutAll(Siblings(orders, o, members), x));
            && after.Keys == orders.Keys
            && after[k] == if k in legs && orders[k].client != o.client && orders[k].status.IsOpen()
                           then Trimmed(orders[k], x, left - x) else orders[k]
  {
    var siblings := Siblings(orders, o, members);
    OpenLegs(orders, members, list, legs, o, k);
    forall i | 0 <= i < |siblings|
      ensures siblings[i].status.IsOpen() && Balanced(siblings[i], left) && 0.0 <= siblings[i].filled
      ensures siblings[i].At() == k ==> siblings[i] == orders[k]
    {
      assert siblings[i] in siblings;
      OpenLegs(orders, members, list, legs, o, siblings[i].At());
    }
    CutsAlike(siblings, x, left);
    SameKeys(orders, Resizes(siblings, x), References(siblings));
    assert Among(siblings, k) <==> exists s :: s in siblings && s.At() == k;
    if x == left {
      CancelAllAt(orders, siblings, k);
    } else if Among(siblings, k) {
      ResizeAllAt(orders, siblings, x, left, k);
    } else {
      Unresized(orders, siblings, x, k);
    }
  }

  lemma {:induction false} Unresized(orders: Orders, siblings: seq<Order>, x: real, k: Key)
    requires k in orders && !Among(siblings, k)
    ensures k in ResizeAll(orders, Resizes(siblings, x)) && ResizeAll(orders, Resizes(siblings, x))[k] == orders[k]
  {
    if siblings != [] {
      var before := siblings[..|siblings| - 1];
      assert Resizes(siblings, x)[..|siblings| - 1] == Resizes(before, x);
      assert forall i :: 0 <= i < |before| ==> before[i] == siblings[i];
      Unresized(orders, before, x, k);
    }
  }

  // ----- One fill and its consequences -----

  /** The same order at another point of its life. */
  predicate SameOrder(o: Order, p: Order) {
    p == o.(status := p.status, quantity := p.quantity, filled := p.filled, leaves := p.leaves, average := p.average,
      updated := p.updated)
  }

  ghost predicate SameOrders(orders: Orders, after: Orders) {
    after.Keys == orders.Keys && forall k :: k in orders ==> SameOrder(orders[k], after[k]) && after[k].Valid()
  }

  lemma SameOrdersKeep(orders: Orders, after: Orders, members: seq<Id>, list: Key, legs: seq<Key>)
    requires Unique(orders) && Lines(orders, members, list, legs) && SameOrders(orders, after)
    ensures Unique(after) && Lines(after, members, list, legs)
  {
    forall a, j, k | j in after && k in after ensures !SharesAlias(a, after[j], after[k]) {
      assert !SharesAlias(a, orders[j], orders[k]);
    }
  }

  lemma StoredInPlace(orders: Orders, o: Order)
    requires Unique(orders) && o.At() in orders && SameOrder(orders[o.At()], o)
    ensures Stored(orders, o) == orders[o.At() := o]
  {
    forall a, k | k in orders ensures !SharesAlias(a, o, orders[k]) {
      assert !SharesAlias(a, orders[o.At()], orders[k]); }
  }

  lemma TrimBalances(o: Order, x: real, left: real)
    requires o.Valid() && o.status.IsOpen() && Balanced(o, left) && 0.0 < x <= left
    ensures var t := Trimmed(o, x, left - x);
            && t.Valid() && SameOrder(o, t) && t.filled == o.filled && Balanced(t, left - x)
              && (t.status.IsOpen() <==> x != left)
  {
  }

  lemma {:induction false} TotalOf(orders: Orders, after: Orders, legs: seq<Key>, k: Key, x: real)
    requires forall i, j :: 0 <= i < j < |legs| ==> legs[i] != legs[j]
    requires forall i :: 0 <= i < |legs| ==> legs[i] in orders && legs[i] in after
    requires forall i :: 0 <= i < |legs| ==> after[legs[i]].filled == orders[legs[i]].filled + if legs[i] == k then x
                 else 0.0
    ensures Total(after, legs) == Total(orders, legs) + if k in legs then x else 0.0
  {
    if legs != [] {
      TotalOf(orders, after, legs[..|legs| - 1], k, x);
      assert legs == legs[..|legs| - 1] + [legs[|legs| - 1]];
    }
  }

  datatype State = State(books: EM.Books, lists: Lists)

  /** A fill is applied, the order's progress is handled, and the actions are carried out. */
  ghost function FillRound(s: State, f: Fill): State {
    var r, target := EM.ApplyFill(s.books, f), EM.Target(s.books.orders, f);
    if !r.outcome.FillStored? || target.None? then State(r.books, s.lists)
    else
      var step := Progress(s.lists, r.books.orders, Normalize(EM.FillOrder(target.value, f)));
      State(r.books.(orders := CarryOut(r.books.orders, step.actions)), step.lists)
  }

  datatype Bound = Kept | Broken

  /** The list holds `legs`, which together have filled no more than `quantity` and are balanced against it. */
  ghost function Exposed(orders: Orders, l: Lists, list: Key, legs: seq<Key>, quantity: real): Bound {
    if && list.id != NO_ID && Unique(orders)
       && Lines(orders, l.Members(list), list, legs)
       && Total(orders, legs) <= quantity
       && AllBalanced(orders, legs, quantity - Total(orders, legs))
       && Marked(orders, l, legs)
    then Kept else Broken
  }

  lemma ProgressMembers(l: Lists, orders: Orders, o: Order, list: Key)
    ensures Progress(l, orders, o).lists.Members(list) == l.Members(list)
  {
  }

  /** The progress of a leg that filled `x` more: the cut of its siblings, and its own watermark while the list is
      open. */
  lemma LegProgress(l: Lists, orders: Orders, o: Order, list: Key, x: real)
    requires o.Valid() && Leg(o, list) && list.id != NO_ID && 0.0 < x && 0.0 < o.filled == l.Mark(o.At()) + x
    ensures var step := Progress(l, orders, o); var cut := CutAll(Siblings(orders, o, l.Members(list)), x);
            && step.actions.cancel == cut.cancel && step.actions.resize == cut.resize
            && (o.At() in orders && orders[o.At()] == o && o.status.IsOpen() ==>
                  step.lists.watermarks == l.watermarks[o.At() := o.filled])
  {
  }

  /** Leg `k` became `next` on a fill of `x`, the other open legs were trimmed, and nothing else changed. */
  ghost predicate Trims(orders: Orders, after: Orders, legs: seq<Key>, k: Key, next: Order, x: real, left: real) {
    && after.Keys == orders.Keys
    && forall j :: j in orders ==>
         after[j] == if j == k then next
                     else if j in legs && orders[j].status.IsOpen() then Trimmed(orders[j], x, left - x)
                     else orders[j]
  }

  lemma RoundTrims(orders: Orders, members: seq<Id>, list: Key, legs: seq<Key>, k: Key, next: Order, x: real,
      left: real)
    requires Unique(orders) && Lines(orders, members, list, legs) && AllBalanced(orders, legs, left)
    requires k in legs && next.At() == k && SameOrder(orders[k], next) && next.Valid() && 0.0 < x <= left
    ensures Trims(orders, CarryOut(orders[k := next], CutAll(Siblings(orders[k := next], next, members), x)), legs, k,
                next, x, left)
  {
    var filled := orders[k := next];
    var after := CarryOut(filled, CutAll(Siblings(filled, next, members), x));
    SameOrdersKeep(orders, filled, members, list, legs);
    forall j | j in legs ensures filled[j].client == next.client <==> j == k {
      assert filled[j].At() == j && !SharesAlias(ClientAlias, filled[k], filled[j]);
    }
    forall j | j in orders
      ensures after.Keys == filled.Keys
      ensures after[j] == if j == k then next else if j in legs
                  && orders[j].status.IsOpen() then Trimmed(orders[j], x, left - x) else orders[j]
    {
      CarryOutTrims(filled, members, list, legs, next, x, left, j);
    }
  }

  /** `next` is leg `o` after a fill of `x` out of `left`; the list stays open unless that was all. */
  function Advance(o: Order, next: Order, x: real, left: real): Bound {
    if && 0.0 < x <= left && next.Valid() && SameOrder(o, next) && next.filled == o.filled + x
       && Balanced(next, left - x) && (next.status.IsOpen() <==> x != left)
    then Kept else Broken
  }

  /** A fill that does not overfill its leg takes at most what the list has left, and all of it when the leg
      completes. */
  lemma FillBalances(o: Order, f: Fill, left: real)
    requires o.Valid() && o.status.IsOpen() && Balanced(o, left) && f.Valid() && !EM.Overfills(o, f)
    ensures var next := Normalize(EM.FillOrder(o, f));
            Advance(o, next, f.quantity, left).Kept? && SameOrder(o, next)
              && (next.status.Filled? <==> f.quantity == left)
  {
  }

  /** A stored fill, as far as the list is concerned. */
  ghost function Effect(s: State, after: State, list: Key, legs: seq<Key>, o: Order, next: Order, x: real,
      left: real): Bound {
    if && o.At() in s.books.orders && s.books.orders[o.At()] == o && Advance(o, next, x, left).Kept?
       && Trims(s.books.orders, after.books.orders, legs, o.At(), next, x, left)
       && (x != left ==> after.lists.watermarks == s.lists.watermarks[o.At() := next.filled])
       && after.lists.Members(list) == s.lists.Members(list)
    then Kept else Broken
  }

  lemma EffectAt(s: State, after: State, list: Key, legs: seq<Key>, quantity: real, o: Order, next: Order, x: real,
      j: Key)
    requires Exposed(s.books.orders, s.lists, list, legs, quantity).Kept? && o.At() in legs && o.status.IsOpen()
    requires Effect(s, after, list, legs, o, next, x, quantity - Total(s.books.orders, legs)).Kept?
    requires j in s.books.orders
    ensures j in after.books.orders && LegEffect(s.books.orders[j], after.books.orders[j], legs, o.At(), x,
                quantity - Total(s.books.orders, legs)).Kept?
  {
    var orders, left := s.books.orders, quantity - Total(s.books.orders, legs);
    if j != o.At() && j in legs && orders[j].status.IsOpen() { TrimBalances(orders[j], x, left); }
  }

  /** What a fill of `x` on leg `k` does to one order. */
  ghost function LegEffect(o: Order, p: Order, legs: seq<Key>, k: Key, x: real, left: real): Bound {
    if && SameOrder(o, p) && p.Valid()
       && (o.At() in legs ==>
             && p.filled == o.filled + (if o.At() == k then x else 0.0) && Balanced(p, left - x)
             && (p.status.IsOpen() <==> o.status.IsOpen() && x != left))
    then Kept else Broken
  }

  lemma EffectShape(s: State, after: State, list: Key, legs: seq<Key>, quantity: real, o: Order, next: Order, x: real)
    requires Exposed(s.books.orders, s.lists, list, legs, quantity).Kept? && o.At() in legs && o.status.IsOpen()
    requires Effect(s, after, list, legs, o, next, x, quantity - Total(s.books.orders, legs)).Kept?
    ensures Unique(after.books.orders) && Lines(after.books.orders, s.lists.Members(list), list, legs)
  {
    forall j | j in s.books.orders ensures SameOrder(s.books.orders[j], after.books.orders[j])
      && after.books.orders[j].Valid() {
      EffectAt(s, after, list, legs, quantity, o, next, x, j);
    }
    SameOrdersKeep(s.books.orders, after.books.orders, s.lists.Members(list), list, legs);
  }

  lemma EffectTotal(s: State, after: State, list: Key, legs: seq<Key>, quantity: real, o: Order, next: Order, x: real)
    requires Exposed(s.books.orders, s.lists, list, legs, quantity).Kept? && o.At() in legs && o.status.IsOpen()
    requires Effect(s, after, list, legs, o, next, x, quantity - Total(s.books.orders, legs)).Kept?
    ensures Total(after.books.orders, legs) == Total(s.books.orders, legs) + x
  {
    forall i | 0 <= i < |legs|
      ensures legs[i] in after.books.orders
      ensures after.books.orders[legs[i]].filled == s.books.orders[legs[i]].filled + if legs[i] == o.At() then x
                  else 0.0
    {
      EffectAt(s, after, list, legs, quantity, o, next, x, legs[i]);
    }
    TotalOf(s.books.orders, after.books.orders, legs, o.At(), x);
  }

  /** A fill within what is left keeps the legs balanced against the exposure that remains. */
  lemma EffectBounded(s: State, after: State, list: Key, legs: seq<Key>, quantity: real, o: Order, next: Order, x: real)
    requires Exposed(s.books.orders, s.lists, list, legs, quantity).Kept? && o.At() in legs && o.status.IsOpen()
    requires Effect(s, after, list, legs, o, next, x, quantity - Total(s.books.orders, legs)).Kept?
    ensures Total(after.books.orders, legs) == Total(s.books.orders, legs) + x
    ensures Exposed(after.books.orders, after.lists, list, legs, quantity).Kept?
    ensures x == quantity - Total(s.books.orders, legs) ==>
              forall i :: 0 <= i < |legs| && legs[i] in after.books.orders ==>
                !after.books.orders[legs[i]].status.IsOpen()
  {
    EffectShape(s, after, list, legs, quantity, o, next, x);
    EffectTotal(s, after, list, legs, quantity, o, next, x);
    forall i | 0 <= i < |legs|
      ensures LegEffect(s.books.orders[legs[i]], after.books.orders[legs[i]], legs, o.At(), x,
                  quantity - Total(s.books.orders, legs)).Kept?
    {
      EffectAt(s, after, list, legs, quantity, o, next, x, legs[i]);
    }
  }

  predicate OnOpenLeg(orders: Orders, legs: seq<Key>, target: Option<Order>) {
    target.Some? && target.value.At() in legs && target.value.At() in orders && target.value.status.IsOpen()
  }

  lemma FillRoundIs(s: State, f: Fill, o: Order, next: Order, filled: Orders, step: Step)
    requires EM.ApplyFill(s.books, f).outcome.FillStored? && EM.Target(s.books.orders, f) == Some(o)
                 && Unique(s.books.orders)
    requires next == Normalize(EM.FillOrder(o, f)) && SameOrder(o, next)
    requires filled == s.books.orders[o.At() := next] && step == Progress(s.lists, filled, next)
    ensures FillRound(s, f).books.orders == CarryOut(filled, step.actions) && FillRound(s, f).lists == step.lists
    ensures f.Valid() && !EM.Overfills(o, f)
  {
    TargetIs(s.books.orders, f, o);
    StoredInPlace(s.books.orders, next);
  }

  /** The list is balanced, and `next` is its open leg `o` after a fill of `x`. */
  ghost function Poised(s: State, list: Key, legs: seq<Key>, quantity: real, o: Order, next: Order, x: real): Bound {
    if && Exposed(s.books.orders, s.lists, list, legs, quantity).Kept?
       && o.At() in legs && o.At() in s.books.orders && o == s.books.orders[o.At()] && o.status.IsOpen()
       && Advance(o, next, x, quantity - Total(s.books.orders, legs)).Kept?
    then Kept else Broken
  }

  lemma LegTrims(s: State, list: Key, legs: seq<Key>, quantity: real, o: Order, next: Order, x: real, filled: Orders,
      cut: Actions)
    requires Poised(s, list, legs, quantity, o, next, x).Kept?
    requires filled == s.books.orders[o.At() := next] && cut == CutAll(Siblings(filled, next, s.lists.Members(list)), x)
    ensures Trims(s.books.orders, CarryOut(filled, cut), legs, o.At(), next, x, quantity - Total(s.books.orders, legs))
  {
    RoundTrims(s.books.orders, s.lists.Members(list), list, legs, o.At(), next, x,
      quantity - Total(s.books.orders, legs));
  }

  lemma LegMarks(s: State, list: Key, legs: seq<Key>, quantity: real, o: Order, next: Order, x: real, filled: Orders,
      step: Step)
    requires Poised(s, list, legs, quantity, o, next, x).Kept?
    requires filled == s.books.orders[o.At() := next] && step == Progress(s.lists, filled, next)
    ensures var cut := CutAll(Siblings(filled, next, s.lists.Members(list)), x);
            step.actions.cancel == cut.cancel && step.actions.resize == cut.resize
    ensures x != quantity - Total(s.books.orders, legs) ==>
                step.lists.watermarks == s.lists.watermarks[o.At() := next.filled]
  {
    LegProgress(s.lists, filled, next, list, x);
  }

  lemma LegCarried(s: State, list: Key, legs: seq<Key>, quantity: real, o: Order, next: Order, x: real, filled: Orders,
      step: Step, cut: Actions)
    requires Poised(s, list, legs, quantity, o, next, x).Kept?
    requires filled == s.books.orders[o.At() := next] && step == Progress(s.lists, filled, next)
    requires cut == CutAll(Siblings(filled, next, s.lists.Members(list)), x)
    ensures CarryOut(filled, step.actions) == CarryOut(filled, cut) && step.lists.Members(list) == s.lists.Members(list)
    ensures x != quantity - Total(s.books.orders, legs) ==>
                step.lists.watermarks == s.lists.watermarks[o.At() := next.filled]
  {
    LegMarks(s, list, legs, quantity, o, next, x, filled, step);
    ProgressMembers(s.lists, filled, next, list);
    CarryOutSame(filled, step.actions, cut);
  }

  lemma LegRound(s: State, list: Key, legs: seq<Key>, quantity: real, o: Order, next: Order, x: real, filled: Orders,
      cut: Actions, after: State)
    requires Poised(s, list, legs, quantity, o, next, x).Kept?
    requires filled == s.books.orders[o.At() := next] && cut == CutAll(Siblings(filled, next, s.lists.Members(list)), x)
    requires after.books.orders == CarryOut(filled, cut) && after.lists.Members(list) == s.lists.Members(list)
    requires x != quantity - Total(s.books.orders, legs) ==>
                 after.lists.watermarks == s.lists.watermarks[o.At() := next.filled]
    ensures Effect(s, after, list, legs, o, next, x, quantity - Total(s.books.orders, legs)).Kept?
  {
    LegTrims(s, list, legs, quantity, o, next, x, filled, cut);
  }

  lemma LegAdvances(s: State, list: Key, legs: seq<Key>, quantity: real, f: Fill, o: Order, next: Order)
    requires Exposed(s.books.orders, s.lists, list, legs, quantity).Kept? && OnOpenLeg(s.books.orders, legs, Some(o))
    requires EM.Target(s.books.orders, f) == Some(o) && f.Valid() && !EM.Overfills(o, f)
    requires next == Normalize(EM.FillOrder(o, f))
    ensures Poised(s, list, legs, quantity, o, next, f.quantity).Kept?
    ensures s.books.orders[o.At()] == o && (next.status.Filled? <==>
                f.quantity == quantity - Total(s.books.orders, legs))
  {
    TargetIs(s.books.orders, f, o);
    FillBalances(o, f, quantity - Total(s.books.orders, legs));
  }

  lemma StoredRound(s: State, list: Key, legs: seq<Key>, quantity: real, f: Fill, o: Order, next: Order, after: State)
    requires Exposed(s.books.orders, s.lists, list, legs, quantity).Kept? && OnOpenLeg(s.books.orders, legs, Some(o))
    requires EM.ApplyFill(s.books, f).outcome.FillStored? && EM.Target(s.books.orders, f) == Some(o)
    requires next == Normalize(EM.FillOrder(o, f)) && after == FillRound(s, f)
    ensures Effect(s, after, list, legs, o, next, f.quantity, quantity - Total(s.books.orders, legs)).Kept?
  {
    var filled := s.books.orders[o.At() := next];
    FillRoundIs(s, f, o, next, filled, Progress(s.lists, filled, next));
    LegAdvances(s, list, legs, quantity, f, o, next);
    var cut := CutAll(Siblings(filled, next, s.lists.Members(list)), f.quantity);
    LegCarried(s, list, legs, quantity, o, next, f.quantity, filled, Progress(s.lists, filled, next), cut);
    LegRound(s, list, legs, quantity, o, next, f.quantity, filled, cut, after);
  }

  // ----- Orders outside the list -----

  /** An order that is no leg, belongs to another list, and whose list names no leg. */
  ghost predicate Apart(orders: Orders, l: Lists, list: Key, legs: seq<Key>, q: Order) {
    && q.At() !in legs && !InList(q, list)
    && (q.account == list.account && q.list != NO_ID ==>
          forall i :: 0 <= i < |legs| && legs[i] in orders ==>
            orders[legs[i]].client !in l.Members(Key(q.account, q.list)))
  }

  /** Actions whose targets are all among the given orders. */
  ghost predicate Aims(a: Actions, siblings: seq<Order>) {
    && (forall r :: r in a.cancel ==> Among(siblings, r.At()))
    && (forall r :: r in a.resize ==> Among(siblings, r.target.At()))
  }

  lemma {:induction false} CutsAim(siblings: seq<Order>, delta: real)
    ensures Aims(CutAll(siblings, delta), siblings)
  {
    if siblings != [] {
      var n := |siblings| - 1;
      CutsAim(siblings[..n], delta);
      assert siblings[n].At() == Refer(siblings[n]).At();
      forall k | Among(siblings[..n], k) ensures Among(siblings, k) {
        var i :| 0 <= i < n && siblings[..n][i].At() == k;
        assert siblings[i].At() == k;
      }
      assert Among(siblings, siblings[n].At());
    }
  }

  lemma ReferencesAim(siblings: seq<Order>)
    ensures Aims(Actions([], [], References(siblings)), siblings)
  {
    forall r | r in References(siblings) ensures Among(siblings, r.At()) {
      var i :| 0 <= i < |siblings| && References(siblings)[i] == r;
      assert siblings[i].At() == r.At();
    }
  }

  lemma ProgressAims(l: Lists, orders: Orders, o: Order)
    ensures Aims(Progress(l, orders, o).actions, Siblings(orders, o, l.Members(Key(o.account, o.list))))
    ensures o.list == NO_ID ==>
                Progress(l, orders, o).actions.cancel == [] && Progress(l, orders, o).actions.resize == []
  {
    var siblings := Siblings(orders, o, l.Members(Key(o.account, o.list)));
    CutsAim(siblings, o.filled - l.Mark(o.At()));
    ReferencesAim(siblings);
  }

  lemma {:induction false} SiblingsNamed(orders: Orders, o: Order, members: seq<Id>, s: Order)
    requires WellKeyed(orders) && s in Siblings(orders, o, members)
    ensures s.At() in orders && orders[s.At()] == s && s.account == o.account && s.client in members
  {
    var n := |members| - 1;
    if s in Siblings(orders, o, members[..n]) { SiblingsNamed(orders, o, members[..n], s); }
  }

  lemma SiblingsApart(orders: Orders, l: Lists, list: Key, legs: seq<Key>, q: Order, k: Key)
    requires Unique(orders) && Lines(orders, l.Members(list), list, legs) && Apart(orders, l, list, legs, q)
                 && k in legs
    requires q.list != NO_ID
    ensures !Among(Siblings(orders, q, l.Members(Key(q.account, q.list))), k)
  {
    var siblings := Siblings(orders, q, l.Members(Key(q.account, q.list)));
    if i :| 0 <= i < |siblings| && siblings[i].At() == k {
      assert siblings[i] in siblings;
      SiblingsNamed(orders, q, l.Members(Key(q.account, q.list)), siblings[i]);
    }
  }

  lemma {:induction false} ResizesKeep(orders: Orders, rs: seq<Resize>, k: Key)
    requires WellKeyed(orders) && k in orders
    ensures var after := ResizeAll(orders, rs);
            && after.Keys == orders.Keys && SameOrder(orders[k], after[k]) && after[k].Valid()
              && after[k].filled == orders[k].filled
            && ((forall r :: r in rs ==> r.target.At() != k) ==> after[k] == orders[k])
  {
    if rs != [] {
      var n := |rs| - 1;
      ResizesKeep(orders, rs[..n], k);
      assert rs[n] in rs;
    }
  }

  lemma {:induction false} CancelsKeep(orders: Orders, rs: seq<Reference>, k: Key)
    requires k in orders && orders[k].Valid()
    ensures var after := CancelAll(orders, rs);
            && after.Keys == orders.Keys && SameOrder(orders[k], after[k]) && after[k].Valid()
              && after[k].filled == orders[k].filled
            && ((forall r :: r in rs ==> r.At() != k) ==> after[k] == orders[k])
  {
    if rs != [] {
      var n := |rs| - 1;
      CancelsKeep(orders, rs[..n], k);
      assert rs[n] in rs;
    }
  }

  /** Whatever the actions, an order keeps its identity and its fills, and one that is no target stays as it was. */
  lemma CarryOutKeeps(orders: Orders, a: Actions, k: Key)
    requires WellKeyed(orders) && k in orders
    ensures var after := CarryOut(orders, a);
            && after.Keys == orders.Keys && SameOrder(orders[k], after[k]) && after[k].Valid()
              && after[k].filled == orders[k].filled
    ensures (forall r :: r in a.resize ==> r.target.At() != k) && (forall r :: r in a.cancel ==> r.At() != k) ==>
              CarryOut(orders, a)[k] == orders[k]
  {
    ResizesKeep(orders, a.resize, k);
    CancelsKeep(ResizeAll(orders, a.resize), a.cancel, k);
  }

  lemma CarryOutSameOrders(orders: Orders, a: Actions)
    requires WellKeyed(orders)
    ensures SameOrders(orders, CarryOut(orders, a))
  {
    SameKeys(orders, a.resize, []);
    SameKeys(ResizeAll(orders, a.resize), [], a.cancel);
    forall k | k in orders ensures SameOrder(orders[k], CarryOut(orders, a)[k]) && CarryOut(orders, a)[k].Valid() {
      CarryOutKeeps(orders, a, k);
    }
  }

  /** Nothing about the list changed from one state to the other. */
  ghost predicate Undisturbed(orders: Orders, l: Lists, after: Orders, l': Lists, list: Key, legs: seq<Key>) {
    && SameOrders(orders, after) && l'.Members(list) == l.Members(list)
    && forall i :: 0 <= i < |legs| && legs[i] in orders ==>
      after[legs[i]] == orders[legs[i]] && l'.Mark(legs[i]) == l.Mark(legs[i])
  }

  lemma {:induction false} TotalSame(orders: Orders, after: Orders, legs: seq<Key>)
    requires after.Keys == orders.Keys && forall i :: 0 <= i < |legs| && legs[i] in orders ==>
                 after[legs[i]] == orders[legs[i]]
    ensures Total(after, legs) == Total(orders, legs)
  {
    if legs != [] { TotalSame(orders, after, legs[..|legs| - 1]); }
  }

  lemma UndisturbedExposed(orders: Orders, l: Lists, after: Orders, l': Lists, list: Key, legs: seq<Key>,
      quantity: real)
    requires Exposed(orders, l, list, legs, quantity).Kept? && Undisturbed(orders, l, after, l', list, legs)
    ensures Exposed(after, l', list, legs, quantity).Kept? && Total(after, legs) == Total(orders, legs)
  {
    TotalSame(orders, after, legs);
    SameOrdersKeep(orders, after, l.Members(list), list, legs);
  }

  lemma ApartMarks(l: Lists, orders: Orders, list: Key, legs: seq<Key>, q: Order, k: Key)
    requires k in legs && k in orders && InList(orders[k], list) && q.At() !in legs && !InList(q, list)
    ensures Progress(l, orders, q).lists.Mark(k) == l.Mark(k)
  {
  }

  /** Progress of an order outside the list, and the actions it leads to, leave the list alone. */
  lemma ApartProgress(orders: Orders, l: Lists, list: Key, legs: seq<Key>, q: Order)
    requires Unique(orders) && Lines(orders, l.Members(list), list, legs) && Apart(orders, l, list, legs, q)
    ensures var step := Progress(l, orders, q); Undisturbed(orders, l, CarryOut(orders, step.actions), step.lists,
                list, legs)
  {
    var step := Progress(l, orders, q);
    ProgressMembers(l, orders, q, list);
    ProgressAims(l, orders, q);
    CarryOutSameOrders(orders, step.actions);
    forall i | 0 <= i < |legs| && legs[i] in orders
      ensures CarryOut(orders, step.actions)[legs[i]] == orders[legs[i]] && step.lists.Mark(legs[i]) == l.Mark(legs[i])
    {
      ApartMarks(l, orders, list, legs, q, legs[i]);
      CarryOutKeeps(orders, step.actions, legs[i]);
      if q.list != NO_ID { SiblingsApart(orders, l, list, legs, q, legs[i]); }
    }
  }

  lemma ApartStored(orders: Orders, l: Lists, list: Key, legs: seq<Key>, q: Order, next: Order)
    requires Unique(orders) && Lines(orders, l.Members(list), list, legs) && Apart(orders, l, list, legs, q)
    requires q.At() in orders && orders[q.At()] == q && SameOrder(q, next) && next.Valid()
    ensures var filled := orders[q.At() := next];
            && Undisturbed(orders, l, filled, l, list, legs) && Unique(filled)
              && Lines(filled, l.Members(list), list, legs)
            && Apart(filled, l, list, legs, next)
  {
    SameOrdersKeep(orders, orders[q.At() := next], l.Members(list), list, legs);
  }

  /** A fill of an order outside the list leaves the list alone. */
  lemma ApartRound(s: State, list: Key, legs: seq<Key>, quantity: real, f: Fill, q: Order)
    requires Exposed(s.books.orders, s.lists, list, legs, quantity).Kept?
    requires EM.ApplyFill(s.books, f).outcome.FillStored? && EM.Target(s.books.orders, f) == Some(q)
    requires Apart(s.books.orders, s.lists, list, legs, q)
    ensures var after := FillRound(s, f);
            && Exposed(after.books.orders, after.lists, list, legs, quantity).Kept?
            && Total(after.books.orders, legs) == Total(s.books.orders, legs)
  {
    var orders, next := s.books.orders, Normalize(EM.FillOrder(q, f));
    var filled := orders[q.At() := next];
    TargetIs(orders, f, q);
    FillRoundIs(s, f, q, next, filled, Progress(s.lists, filled, next));
    ApartStored(orders, s.lists, list, legs, q, next);
    UndisturbedExposed(orders, s.lists, filled, s.lists, list, legs, quantity);
    ApartProgress(filled, s.lists, list, legs, next);
    UndisturbedExposed(filled, s.lists, FillRound(s, f).books.orders, FillRound(s, f).lists, list, legs, quantity);
  }

  // ----- Any fill -----

  /** A stored fill that does not touch the list: of no order, or of one outside it. */
  ghost predicate Elsewhere(s: State, list: Key, legs: seq<Key>, f: Fill) {
    var target := EM.Target(s.books.orders, f);
    target.None? || Apart(s.books.orders, s.lists, list, legs, target.value)
  }

  predicate Stores(outcome: EM.Outcome) {
    outcome.FillStored?
  }

  /** A refused or repeated fill and one elsewhere leave the total; one on an open leg is added and stays within the
      quantity. */
  lemma FillRoundBounded(s: State, list: Key, legs: seq<Key>, quantity: real, f: Fill)
    requires Exposed(s.books.orders, s.lists, list, legs, quantity).Kept?
    requires Stores(EM.ApplyFill(s.books, f).outcome) ==>
               Elsewhere(s, list, legs, f) || OnOpenLeg(s.books.orders, legs, EM.Target(s.books.orders, f))
    ensures var after := FillRound(s, f);
            && Exposed(after.books.orders, after.lists, list, legs, quantity).Kept?
            && Total(after.books.orders, legs) == Total(s.books.orders, legs) +
                 if Stores(EM.ApplyFill(s.books, f).outcome) && !Elsewhere(s, list, legs, f) then f.quantity else 0.0
  {
    if !Stores(EM.ApplyFill(s.books, f).outcome) {
      RefusedRound(s, f);
    } else if EM.Target(s.books.orders, f).None? {
      OrphanRound(s, f);
    } else if Elsewhere(s, list, legs, f) {
      ApartRound(s, list, legs, quantity, f, EM.Target(s.books.orders, f).value);
    } else {
      var o := EM.Target(s.books.orders, f).value;
      StoredRound(s, list, legs, quantity, f, o, Normalize(EM.FillOrder(o, f)), FillRound(s, f));
      EffectBounded(s, FillRound(s, f), list, legs, quantity, o, Normalize(EM.FillOrder(o, f)), f.quantity);
    }
  }

  lemma OrphanRound(s: State, f: Fill)
    requires EM.Target(s.books.orders, f).None?
    ensures FillRound(s, f).books.orders == s.books.orders && FillRound(s, f).lists == s.lists
  {
  }

  lemma RefusedRound(s: State, f: Fill)
    requires !EM.ApplyFill(s.books, f).outcome.FillStored?
    ensures FillRound(s, f).books.orders == s.books.orders && FillRound(s, f).lists == s.lists
  {
  }

  lemma CarryOutSame(orders: Orders, a: Actions, b: Actions)
    requires a.resize == b.resize && a.cancel == b.cancel
    ensures CarryOut(orders, a) == CarryOut(orders, b)
  {
  }

  lemma TargetIs(orders: Orders, f: Fill, o: Order)
    requires WellKeyed(orders) && EM.Target(orders, f) == Some(o)
    ensures o.At() in orders && orders[o.At()] == o
  {
  }

  // ----- Replayed reports -----

  /** A report on a leg that tells of no more than the leg has filled. */
  predicate Stale(orders: Orders, list: Key, legs: seq<Key>, o: Order) {
    && o.At() in legs && o.At() in orders && Leg(o, list) && o.client == orders[o.At()].client
    && o.filled <= orders[o.At()].filled
  }

  ghost predicate AnyOpen(orders: Orders, legs: seq<Key>) {
    exists i :: 0 <= i < |legs| && legs[i] in orders && orders[legs[i]].status.IsOpen()
  }

  lemma NoSiblings(orders: Orders, members: seq<Id>, list: Key, legs: seq<Key>, o: Order)
    requires Unique(orders) && Lines(orders, members, list, legs) && o.account == list.account && !AnyOpen(orders, legs)
    ensures Siblings(orders, o, members) == []
  {
    var siblings := Siblings(orders, o, members);
    if siblings != [] {
      assert siblings[0] in siblings;
      OpenLegs(orders, members, list, legs, o, siblings[0].At());
    }
  }

  /** Replayed progress resizes and cancels nothing, in any state of the list. */
  lemma ReplayIdle(orders: Orders, l: Lists, list: Key, legs: seq<Key>, quantity: real, o: Order)
    requires Exposed(orders, l, list, legs, quantity).Kept? && Stale(orders, list, legs, o)
    ensures var step := Progress(l, orders, o); step.actions.resize == [] && step.actions.cancel == []
    ensures Exposed(orders, Progress(l, orders, o).lists, list, legs, quantity).Kept?
  {
    ProgressMembers(l, orders, o, list);
    if AnyOpen(orders, legs) {
      StaleProgress(l, orders, list, legs, o);
    } else {
      NoSiblings(orders, l.Members(list), list, legs, o);
    }
  }

  lemma StaleProgress(l: Lists, orders: Orders, list: Key, legs: seq<Key>, o: Order)
    requires AnyOpen(orders, legs) && Stale(orders, list, legs, o) && Marked(orders, l, legs)
    requires forall i :: 0 <= i < |legs| && legs[i] in orders ==> Leg(orders[legs[i]], list)
    ensures var step := Progress(l, orders, o);
            step.actions.resize == [] && step.actions.cancel == [] && step.lists.watermarks == l.watermarks
  {
    assert !IsClosed(l, orders, list);
    assert o.filled <= l.Mark(o.At());
  }

  // ----- Legs closed from outside -----

  /** A valid report that ends a leg (a cancel, a rejection, an expiry) and leaves its filled quantity. */
  predicate Ends(orders: Orders, legs: seq<Key>, r: Order) {
    && r.At() in legs && r.At() in orders && SameOrder(orders[r.At()], r) && EM.TransitionAllowed(orders, r)
    && r.Valid() && !r.status.IsOpen() && Normalize(r).filled == r.filled == orders[r.At()].filled
  }

  /** The manager stores such a report in place of the leg. */
  lemma EndIsStored(books: EM.Books, legs: seq<Key>, r: Order)
    requires Unique(books.orders) && Ends(books.orders, legs, r)
    requires EM.Replayable(books) && Of(books.fills.deferred, r.At()) == map[]
    ensures EM.ApplyOrderReport(books, r).books.orders == books.orders[r.At() := Normalize(r)]
  {
    EM.ReportAlone(books, r);
    StoredInPlace(books.orders, Normalize(r));
  }

  lemma EndKeeps(orders: Orders, l: Lists, list: Key, legs: seq<Key>, r: Order, ended: Orders)
    requires Unique(orders) && Lines(orders, l.Members(list), list, legs) && Ends(orders, legs, r)
    requires ended == Stored(orders, Normalize(r))
    ensures ended == orders[r.At() := Normalize(r)] && SameOrders(orders, ended)
    ensures Unique(ended) && Lines(ended, l.Members(list), list, legs) && Total(ended, legs) == Total(orders, legs)
  {
    StoredInPlace(orders, Normalize(r));
    SameOrdersKeep(orders, ended, l.Members(list), list, legs);
    TotalOf(orders, ended, legs, r.At(), 0.0);
  }

  lemma EndMarked(orders: Orders, l: Lists, legs: seq<Key>, r: Order, ended: Orders)
    requires Marked(orders, l, legs) && Ends(orders, legs, r) && ended == orders[r.At() := Normalize(r)]
    ensures Marked(ended, l, legs)
  {
    if AnyOpen(ended, legs) { assert AnyOpen(orders, legs); }
  }

  /** The end of a leg leaves the others balanced, and asks nothing of them. */
  lemma EndBounded(orders: Orders, l: Lists, list: Key, legs: seq<Key>, quantity: real, r: Order, ended: Orders)
    requires Exposed(orders, l, list, legs, quantity).Kept? && Ends(orders, legs, r)
    requires ended == Stored(orders, Normalize(r))
    ensures var step := Progress(l, ended, r);
            CarryOut(ended, step.actions) == ended && Exposed(ended, step.lists, list, legs, quantity).Kept?
  {
    EndKeeps(orders, l, list, legs, r, ended);
    EndMarked(orders, l, legs, r, ended);
    ReplayIdle(ended, l, list, legs, quantity, r);
  }

  // ----- Whole runs -----

  datatype Event = Executed(fill: Fill) | Replayed(report: Order) | Ended(report: Order)

  ghost function Next(s: State, e: Event): State {
    match e
    case Executed(f) => FillRound(s, f)
    case Replayed(o) =>
      var step := Progress(s.lists, s.books.orders, o);
      State(s.books.(orders := CarryOut(s.books.orders, step.actions)), step.lists)
    case Ended(o) =>
      var ended := Stored(s.books.orders, Normalize(o));
      var step := Progress(s.lists, ended, o);
      State(s.books.(orders := CarryOut(ended, step.actions)), step.lists)
  }

  /** A fill may hit any leg or any order outside the list, and any leg may be ended; replayed reports tell nothing new
      of a leg. */
  ghost predicate Possible(s: State, list: Key, legs: seq<Key>, e: Event) {
    match e
    case Executed(f) => Stores(EM.ApplyFill(s.books, f).outcome) ==> Elsewhere(s, list, legs, f) || OnLeg(s, legs, f)
    case Replayed(o) => Stale(s.books.orders, list, legs, o) || Apart(s.books.orders, s.lists, list, legs, o)
    case Ended(o) => Ends(s.books.orders, legs, o)
  }

  ghost predicate OnLeg(s: State, legs: seq<Key>, f: Fill) {
    var target := EM.Target(s.books.orders, f);
    target.Some? && target.value.At() in legs && target.value.At() in s.books.orders
  }

  /** The fill does not cross a cancel: the leg it hits, if any, is still open. */
  ghost predicate Punctual(s: State, list: Key, legs: seq<Key>, e: Event) {
    e.Executed? && Stores(EM.ApplyFill(s.books, e.fill).outcome) ==>
      Elsewhere(s, list, legs, e.fill) || OnOpenLeg(s.books.orders, legs, EM.Target(s.books.orders, e.fill))
  }

  ghost function After(s: State, events: seq<Event>): State {
    if events == [] then s else Next(After(s, events[..|events| - 1]), events[|events| - 1])
  }

  ghost predicate Runs(s: State, list: Key, legs: seq<Key>, events: seq<Event>) {
    events == [] || (Runs(s, list, legs, events[..|events| - 1])
      && Possible(After(s, events[..|events| - 1]), list, legs, events[|events| - 1]))
  }

  /** A list of equal legs, none of which has filled. */
  ghost predicate Fresh(s: State, list: Key, legs: seq<Key>, quantity: real) {
    && list.id != NO_ID && 0.0 < quantity && Unique(s.books.orders)
      && Lines(s.books.orders, s.lists.Members(list), list, legs)
    && forall i :: 0 <= i < |legs| && legs[i] in s.books.orders ==>
         var o := s.books.orders[legs[i]];
         o.quantity == quantity && o.filled == 0.0 && o.status.IsOpen() && !o.status.PendingCancel?
           && s.lists.Mark(legs[i]) == 0.0
  }

  lemma {:induction false} FreshTotal(orders: Orders, legs: seq<Key>)
    requires forall i :: 0 <= i < |legs| && legs[i] in orders ==> orders[legs[i]].filled == 0.0
    ensures Total(orders, legs) == 0.0
  {
    if legs != [] { FreshTotal(orders, legs[..|legs| - 1]); }
  }

  ghost predicate AllPunctual(s: State, list: Key, legs: seq<Key>, events: seq<Event>) {
    events == [] ||
    (AllPunctual(s, list, legs, events[..|events| - 1])
      && Punctual(After(s, events[..|events| - 1]), list, legs, events[|events| - 1]))
  }

  /** The legs of a list never fill more than the quantity of one of them, over any run in which no fill crosses a
      cancel. */
  lemma {:induction false} ExposureBounded(s: State, list: Key, legs: seq<Key>, quantity: real, events: seq<Event>)
    requires Fresh(s, list, legs, quantity) && Runs(s, list, legs, events) && AllPunctual(s, list, legs, events)
    ensures var after := After(s, events);
            Total(after.books.orders, legs) <= quantity
              && Exposed(after.books.orders, after.lists, list, legs, quantity).Kept?
  {
    if events == [] {
      FreshTotal(s.books.orders, legs);
    } else {
      var before, e := events[..|events| - 1], events[|events| - 1];
      ExposureBounded(s, list, legs, quantity, before);
      NextBounded(After(s, before), list, legs, quantity, e);
    }
  }

  lemma NextBounded(s: State, list: Key, legs: seq<Key>, quantity: real, e: Event)
    requires Exposed(s.books.orders, s.lists, list, legs, quantity).Kept? && Possible(s, list, legs, e)
                 && Punctual(s, list, legs, e)
    ensures Exposed(Next(s, e).books.orders, Next(s, e).lists, list, legs, quantity).Kept?
  {
    match e
    case Executed(f) => FillRoundBounded(s, list, legs, quantity, f);
    case Replayed(o) =>
      if Apart(s.books.orders, s.lists, list, legs, o) {
        ApartProgress(s.books.orders, s.lists, list, legs, o);
        UndisturbedExposed(s.books.orders, s.lists, Next(s, e).books.orders, Next(s, e).lists, list, legs, quantity);
      } else {
        ReplayIdle(s.books.orders, s.lists, list, legs, quantity, o);
      }
    case Ended(o) =>
      EndBounded(s.books.orders, s.lists, list, legs, quantity, o, Stored(s.books.orders, Normalize(o)));
  }

  // ----- Fills that cross a cancel -----

  /** Whatever the state of the leg, a stored fill of it is added to the total. */
  lemma StoredTotal(s: State, list: Key, legs: seq<Key>, f: Fill, o: Order)
    requires Unique(s.books.orders) && Lines(s.books.orders, s.lists.Members(list), list, legs)
    requires EM.ApplyFill(s.books, f).outcome.FillStored? && EM.Target(s.books.orders, f) == Some(o)
    ensures Total(FillRound(s, f).books.orders, legs) ==
              Total(s.books.orders, legs) + if o.At() in legs then f.quantity else 0.0
  {
    var orders, next := s.books.orders, Normalize(EM.FillOrder(o, f));
    var filled := orders[o.At() := next];
    TargetIs(orders, f, o);
    StoredKeys(s, f, o, next, filled);
    forall i | 0 <= i < |legs|
      ensures legs[i] in FillRound(s, f).books.orders
      ensures FillRound(s, f).books.orders[legs[i]].filled == orders[legs[i]].filled + if legs[i] == o.At()
                  then f.quantity else 0.0
    {
      CarryOutKeeps(filled, Progress(s.lists, filled, next).actions, legs[i]);
    }
    TotalOf(orders, FillRound(s, f).books.orders, legs, o.At(), f.quantity);
  }

  lemma StoredKeys(s: State, f: Fill, o: Order, next: Order, filled: Orders)
    requires Unique(s.books.orders) && EM.ApplyFill(s.books, f).outcome.FillStored?
                 && EM.Target(s.books.orders, f) == Some(o)
    requires next == Normalize(EM.FillOrder(o, f)) && filled == s.books.orders[o.At() := next]
    ensures WellKeyed(filled) && next.filled == o.filled + f.quantity
                && FillRound(s, f).books.orders == CarryOut(filled, Progress(s.lists, filled, next).actions)
  {
    TargetIs(s.books.orders, f, o);
    FillRoundIs(s, f, o, next, filled, Progress(s.lists, filled, next));
  }

  /** A stored fill keeps the total within the quantity exactly when that much is left; once the legs have filled the
      quantity, nothing is. */
  lemma LateFillIff(s: State, list: Key, legs: seq<Key>, quantity: real, f: Fill, o: Order)
    requires Exposed(s.books.orders, s.lists, list, legs, quantity).Kept?
    requires EM.ApplyFill(s.books, f).outcome.FillStored? && EM.Target(s.books.orders, f) == Some(o) && o.At() in legs
    ensures Total(FillRound(s, f).books.orders, legs) <= quantity <==>
                f.quantity <= quantity - Total(s.books.orders, legs)
    ensures Total(s.books.orders, legs) == quantity ==>
              Total(FillRound(s, f).books.orders, legs) == quantity + f.quantity > quantity
  {
    StoredTotal(s, list, legs, f, o);
    TargetIs(s.books.orders, f, o);
    FillRoundIs(s, f, o, Normalize(EM.FillOrder(o, f)), s.books.orders[o.At() := Normalize(EM.FillOrder(o, f))],
                Progress(s.lists, s.books.orders[o.At() := Normalize(EM.FillOrder(o, f))],
                  Normalize(EM.FillOrder(o, f))));
    var i :| 0 <= i < |legs| && legs[i] == o.At();
  }

  ghost predicate AlwaysWithin(s: State, legs: seq<Key>, quantity: real, events: seq<Event>) {
    Total(After(s, events).books.orders, legs) <= quantity
      && (events == [] || AlwaysWithin(s, legs, quantity, events[..|events| - 1]))
  }

  /** A fill that hits a closed leg finds the quantity filled: the leg was closed by completion, not from outside. */
  ghost predicate Overdue(s: State, list: Key, legs: seq<Key>, quantity: real, e: Event) {
    !Punctual(s, list, legs, e) ==> Total(s.books.orders, legs) == quantity
  }

  ghost predicate AllOverdue(s: State, list: Key, legs: seq<Key>, quantity: real, events: seq<Event>) {
    events == [] ||
    (AllOverdue(s, list, legs, quantity, events[..|events| - 1])
      && Overdue(After(s, events[..|events| - 1]), list, legs, quantity, events[|events| - 1]))
  }

  /** All along a run the legs stay within the quantity if and only if no fill hits a leg that completion has closed. */
  lemma {:induction false} ExposureIff(s: State, list: Key, legs: seq<Key>, quantity: real, events: seq<Event>)
    requires Fresh(s, list, legs, quantity) && Runs(s, list, legs, events)
    requires AllOverdue(s, list, legs, quantity, events)
    ensures AlwaysWithin(s, legs, quantity, events) <==> AllPunctual(s, list, legs, events)
  {
    if events == [] {
      FreshTotal(s.books.orders, legs);
    } else {
      var before, e := events[..|events| - 1], events[|events| - 1];
      ExposureIff(s, list, legs, quantity, before);
      if AllPunctual(s, list, legs, before) {
        ExposureBounded(s, list, legs, quantity, before);
        var now := After(s, before);
        if Punctual(now, list, legs, e) {
          ExposureBounded(s, list, legs, quantity, events);
        } else {
          var o := EM.Target(now.books.orders, e.fill).value;
          LateFillIff(now, list, legs, quantity, e.fill, o);
        }
      }
    }
  }

  /** The members of the list name `legs`, in whatever state they are. */
  ghost predicate Shaped(s: State, list: Key, legs: seq<Key>) {
    Unique(s.books.orders) && Lines(s.books.orders, s.lists.Members(list), list, legs)
  }

  /** What an event fills of the legs. */
  ghost function Taken(s: State, legs: seq<Key>, e: Event): real {
    if e.Executed? && Stores(EM.ApplyFill(s.books, e.fill).outcome) && OnLeg(s, legs, e.fill) then e.fill.quantity
    else 0.0
  }

  lemma StoredShape(s: State, list: Key, legs: seq<Key>, f: Fill, o: Order)
    requires Shaped(s, list, legs)
    requires EM.ApplyFill(s.books, f).outcome.FillStored? && EM.Target(s.books.orders, f) == Some(o)
    ensures Shaped(FillRound(s, f), list, legs)
  {
    var next := Normalize(EM.FillOrder(o, f));
    var filled := s.books.orders[o.At() := next];
    TargetIs(s.books.orders, f, o);
    FillRoundIs(s, f, o, next, filled, Progress(s.lists, filled, next));
    StoredKeys(s, f, o, next, filled);
    SameOrdersKeep(s.books.orders, filled, s.lists.Members(list), list, legs);
    CarriedShape(filled, s.lists, list, legs, next);
  }

  /** Progress on any order, and the actions it leads to, keep the shape of the list and what its legs have filled. */
  lemma CarriedShape(orders: Orders, l: Lists, list: Key, legs: seq<Key>, o: Order)
    requires Unique(orders) && Lines(orders, l.Members(list), list, legs)
    ensures var step := Progress(l, orders, o); var after := CarryOut(orders, step.actions);
            && Unique(after) && Lines(after, step.lists.Members(list), list, legs)
            && Total(after, legs) == Total(orders, legs)
  {
    var step := Progress(l, orders, o);
    ProgressMembers(l, orders, o, list);
    CarryOutSameOrders(orders, step.actions);
    SameOrdersKeep(orders, CarryOut(orders, step.actions), l.Members(list), list, legs);
    forall i | 0 <= i < |legs| ensures CarryOut(orders, step.actions)[legs[i]].filled == orders[legs[i]].filled {
      CarryOutKeeps(orders, step.actions, legs[i]);
    }
    TotalOf(orders, CarryOut(orders, step.actions), legs, list, 0.0);
  }

  lemma NextTotal(s: State, list: Key, legs: seq<Key>, e: Event)
    requires Shaped(s, list, legs) && (e.Ended? ==> Ends(s.books.orders, legs, e.report))
    ensures Shaped(Next(s, e), list, legs)
    ensures Total(Next(s, e).books.orders, legs) == Total(s.books.orders, legs) + Taken(s, legs, e)
  {
    match e
    case Executed(f) =>
      if !Stores(EM.ApplyFill(s.books, f).outcome) {
        RefusedRound(s, f);
      } else if EM.Target(s.books.orders, f).None? {
        OrphanRound(s, f);
      } else {
        var o := EM.Target(s.books.orders, f).value;
        TargetIs(s.books.orders, f, o);
        StoredTotal(s, list, legs, f, o);
        StoredShape(s, list, legs, f, o);
      }
    case Replayed(o) => CarriedShape(s.books.orders, s.lists, list, legs, o);
    case Ended(o) =>
      var ended := Stored(s.books.orders, Normalize(o));
      EndKeeps(s.books.orders, s.lists, list, legs, o, ended);
      CarriedShape(ended, s.lists, list, legs, o);
  }

  /** No fill takes more than the legs have left of the quantity. */
  ghost predicate AllFit(s: State, legs: seq<Key>, quantity: real, events: seq<Event>) {
    events == [] ||
    (AllFit(s, legs, quantity, events[..|events| - 1])
      && var now := After(s, events[..|events| - 1]);
         Taken(now, legs, events[|events| - 1]) <= quantity - Total(now.books.orders, legs))
  }

  /** Over every run, with legs closed from outside and fills that still hit them: the legs stay within the quantity if
      and only if every fill does. */
  lemma {:induction false} ExposureFits(s: State, list: Key, legs: seq<Key>, quantity: real, events: seq<Event>)
    requires Shaped(s, list, legs) && Total(s.books.orders, legs) <= quantity && Runs(s, list, legs, events)
    ensures AlwaysWithin(s, legs, quantity, events) <==> AllFit(s, legs, quantity, events)
    ensures Shaped(After(s, events), list, legs)
  {
    if events != [] {
      var before, e := events[..|events| - 1], events[|events| - 1];
      ExposureFits(s, list, legs, quantity, before);
      NextTotal(After(s, before), list, legs, e);
    }
  }

  /** The actions a stored fill leads to. */
  ghost function Told(s: State, f: Fill, o: Order): Actions {
    Progress(s.lists, s.books.orders[o.At() := Normalize(EM.FillOrder(o, f))], Normalize(EM.FillOrder(o, f))).actions
  }

  lemma AllCancelled(orders: Orders, l: Lists, list: Key, legs: seq<Key>, o: Order, left: real, j: Key)
    requires Unique(orders) && Lines(orders, l.Members(list), list, legs) && list.id != NO_ID
    requires Leg(o, list) && o.Valid() && 0.0 < left && 0.0 < o.filled == l.Mark(o.At()) + left
    requires forall i :: 0 <= i < |legs| && orders[legs[i]].client != o.client ==> Balanced(orders[legs[i]], left)
    requires j in legs && orders[j].client != o.client && orders[j].status.IsOpen()
    ensures Refer(orders[j]) in Progress(l, orders, o).actions.cancel
  {
    var siblings := Siblings(orders, o, l.Members(list));
    LegProgress(l, orders, o, list, left);
    forall i | 0 <= i < |siblings| ensures siblings[i].status.IsOpen() && Balanced(siblings[i], left)
      && 0.0 <= siblings[i].filled {
      assert siblings[i] in siblings;
      OpenLegs(orders, l.Members(list), list, legs, o, siblings[i].At());
    }
    CutsAlike(siblings, left, left);
    OpenLegs(orders, l.Members(list), list, legs, o, j);
    var i :| 0 <= i < |siblings| && siblings[i].At() == j;
    assert siblings[i] in siblings && References(siblings)[i] == Refer(orders[j]);
  }

  lemma AdvancedCancels(s: State, list: Key, legs: seq<Key>, quantity: real, o: Order, next: Order, filled: Orders,
      j: Key)
    requires Exposed(s.books.orders, s.lists, list, legs, quantity).Kept?
    requires o.At() in legs && o.At() in s.books.orders && s.books.orders[o.At()] == o && o.status.IsOpen()
    requires Advance(o, next, quantity - Total(s.books.orders, legs), quantity - Total(s.books.orders, legs)).Kept?
    requires filled == s.books.orders[o.At() := next]
    requires j in legs && j != o.At() && s.books.orders[j].status.IsOpen()
    ensures Refer(s.books.orders[j]) in Progress(s.lists, filled, next).actions.cancel
  {
    SameOrdersKeep(s.books.orders, filled, s.lists.Members(list), list, legs);
    assert !SharesAlias(ClientAlias, s.books.orders[o.At()], s.books.orders[j]);
    AllCancelled(filled, s.lists, list, legs, next, quantity - Total(s.books.orders, legs), j);
  }

  /** When a leg completes, the legs have filled the quantity exactly and none stays open. */
  lemma CompletionCloses(s: State, list: Key, legs: seq<Key>, quantity: real, f: Fill, o: Order, next: Order,
      after: State)
    requires Exposed(s.books.orders, s.lists, list, legs, quantity).Kept? && OnOpenLeg(s.books.orders, legs, Some(o))
    requires EM.ApplyFill(s.books, f).outcome.FillStored? && EM.Target(s.books.orders, f) == Some(o)
    requires next == Normalize(EM.FillOrder(o, f)) && next.status.Filled? && after == FillRound(s, f)
    ensures Total(after.books.orders, legs) == quantity && !AnyOpen(after.books.orders, legs)
  {
    Completes(s, list, legs, quantity, f, o, next);
    StoredRound(s, list, legs, quantity, f, o, next, after);
    EffectBounded(s, after, list, legs, quantity, o, next, f.quantity);
  }

  lemma Completes(s: State, list: Key, legs: seq<Key>, quantity: real, f: Fill, o: Order, next: Order)
    requires Exposed(s.books.orders, s.lists, list, legs, quantity).Kept? && OnOpenLeg(s.books.orders, legs, Some(o))
    requires EM.ApplyFill(s.books, f).outcome.FillStored? && EM.Target(s.books.orders, f) == Some(o)
    requires next == Normalize(EM.FillOrder(o, f)) && next.status.Filled?
    ensures f.quantity == quantity - Total(s.books.orders, legs)
    ensures o.At() in s.books.orders && s.books.orders[o.At()] == o
                && Poised(s, list, legs, quantity, o, next, f.quantity).Kept?
  {
    LegAdvances(s, list, legs, quantity, f, o, next);
  }

  /** And every other open leg is told to cancel. */
  lemma CompletionCancels(s: State, list: Key, legs: seq<Key>, quantity: real, f: Fill, o: Order, j: Key)
    requires Exposed(s.books.orders, s.lists, list, legs, quantity).Kept? && OnOpenLeg(s.books.orders, legs, Some(o))
    requires EM.ApplyFill(s.books, f).outcome.FillStored? && EM.Target(s.books.orders, f) == Some(o)
    requires Normalize(EM.FillOrder(o, f)).status.Filled?
    requires j in legs && j != o.At() && j in s.books.orders && s.books.orders[j].status.IsOpen()
    ensures Refer(s.books.orders[j]) in Told(s, f, o).cancel
  {
    var next := Normalize(EM.FillOrder(o, f));
    Completes(s, list, legs, quantity, f, o, next);
    AdvancedCancels(s, list, legs, quantity, o, next, s.books.orders[o.At() := next], j);
  }

  lemma CompletionLeaves(s: State, list: Key, legs: seq<Key>, quantity: real, f: Fill, o: Order, next: Order,
      after: State, j: Key)
    requires Exposed(s.books.orders, s.lists, list, legs, quantity).Kept? && OnOpenLeg(s.books.orders, legs, Some(o))
    requires EM.ApplyFill(s.books, f).outcome.FillStored? && EM.Target(s.books.orders, f) == Some(o)
    requires next == Normalize(EM.FillOrder(o, f)) && next.status.Filled? && after == FillRound(s, f)
    requires j in legs && j != o.At() && j in s.books.orders && s.books.orders[j].status.IsOpen()
    ensures j in after.books.orders && after.books.orders[j] == CancelOrder(s.books.orders[j])
    ensures Exposed(after.books.orders, after.lists, list, legs, quantity).Kept?
    ensures Total(after.books.orders, legs) == quantity
  {
    Completes(s, list, legs, quantity, f, o, next);
    StoredRound(s, list, legs, quantity, f, o, next, after);
    EffectBounded(s, after, list, legs, quantity, o, next, f.quantity);
  }

  // ----- A fill that crosses a cancel -----

  /** A fill of a cancelled order is stored like any other. */
  lemma CancelledFills(books: EM.Books, q: Order, g: Fill)
    requires q.Valid() && q.At() in books.orders && books.orders[q.At()] == CancelOrder(q)
    requires g.Valid() && g.At() == q.At() && 0.0 < q.quantity && q.filled + g.quantity <= q.quantity
    requires Key(g.account, g.trade) !in books.fills.trades && !books.fills.Has(g)
    ensures EM.ApplyFill(books, g).outcome.FillStored? && EM.Target(books.orders, g) == Some(CancelOrder(q))
  {
  }

  /** After a leg has completed, a fill that still reaches another leg is stored and takes the total past the
      quantity. */
  lemma LateFillDoubles(s: State, list: Key, legs: seq<Key>, quantity: real, f: Fill, o: Order, g: Fill, after: State)
    requires Exposed(s.books.orders, s.lists, list, legs, quantity).Kept? && OnOpenLeg(s.books.orders, legs, Some(o))
    requires EM.ApplyFill(s.books, f).outcome.FillStored? && EM.Target(s.books.orders, f) == Some(o)
    requires Normalize(EM.FillOrder(o, f)).status.Filled? && after == FillRound(s, f)
    requires g.At() in legs && g.At() != o.At() && g.At() in s.books.orders && s.books.orders[g.At()].status.IsOpen()
    requires g.Valid() && s.books.orders[g.At()].filled + g.quantity <= s.books.orders[g.At()].quantity
    requires Key(g.account, g.trade) !in after.books.fills.trades && !after.books.fills.Has(g)
    ensures EM.ApplyFill(after.books, g).outcome.FillStored?
    ensures OnLeg(after, legs, g) && Total(FillRound(after, g).books.orders, legs) == quantity + g.quantity
  {
    var q := s.books.orders[g.At()];
    CompletionLeaves(s, list, legs, quantity, f, o, Normalize(EM.FillOrder(o, f)), after, g.At());
    LegValid(s, list, legs, quantity, g.At());
    CancelledFills(after.books, q, g);
    LateFillIff(after, list, legs, quantity, g, CancelOrder(q));
  }

  lemma LegValid(s: State, list: Key, legs: seq<Key>, quantity: real, k: Key)
    requires Exposed(s.books.orders, s.lists, list, legs, quantity).Kept? && k in legs && k in s.books.orders
    requires s.books.orders[k].status.IsOpen()
    ensures s.books.orders[k].Valid() && s.books.orders[k].At() == k && 0.0 < s.books.orders[k].quantity
  {
    var i :| 0 <= i < |legs| && legs[i] == k;
  }

  function LegOrder(order: Id): Order {
    Order(1, 1, order, order, NO_ID, NO_ID, NO_ID, 5, NO_ID, Accepted, Buy, Ouo, 1.0, 0.0, 1.0, 0.0, 0)
  }

  function LegFill(order: Id): Fill {
    Fill(1, 1, order, NO_ID, NO_ID, order, NO_ID, false, Buy, 1.0, 1.0, 0.0, 0)
  }

  /** Two legs of one each. */
  function TwoLegs(): State {
    State(EM.Books(map[Key(1, 1) := LegOrder(1), Key(1, 2) := LegOrder(2)], FillBook(map[], map[], map[])),
          Lists(map[], map[Key(1, 5) := [1, 2]], map[]))
  }

  lemma TwoLegsFresh(legs: seq<Key>)
    requires legs == [Key(1, 1), Key(1, 2)]
    ensures Fresh(TwoLegs(), Key(1, 5), legs, 1.0)
    ensures Exposed(TwoLegs().books.orders, TwoLegs().lists, Key(1, 5), legs, 1.0).Kept?
  {
    FreshTotal(TwoLegs().books.orders, legs);
  }

  lemma FirstLegFills(s: State, f: Fill)
    requires s == TwoLegs() && f == LegFill(1)
    ensures EM.ApplyFill(s.books, f).outcome.FillStored? && EM.Target(s.books.orders, f) == Some(LegOrder(1))
    ensures Normalize(EM.FillOrder(LegOrder(1), f)).status.Filled?
    ensures FillRound(s, f).books.fills == FillBook(map[], map[], map[]).Put(f)
  {
  }

  lemma SecondFillNew(b: FillBook)
    requires b == FillBook(map[], map[], map[]).Put(LegFill(1))
    ensures Key(1, 2) !in b.trades && !b.Has(LegFill(2))
  {
  }

  lemma LateFillRun(s: State, legs: seq<Key>, f: Fill, g: Fill)
    requires s == TwoLegs() && legs == [Key(1, 1), Key(1, 2)] && f == LegFill(1) && g == LegFill(2)
    ensures Fresh(s, Key(1, 5), legs, 1.0) && Total(FillRound(FillRound(s, f), g).books.orders, legs) == 2.0
  {
    TwoLegsFresh(legs);
    FirstLegFills(s, f);
    SecondFillNew(FillRound(s, f).books.fills);
    assert legs[0] == Key(1, 1) && legs[1] == Key(1, 2);
    LateFillDoubles(s, Key(1, 5), legs, 1.0, f, LegOrder(1), g, FillRound(s, f));
  }

  ghost predicate Exceeds(s: State, list: Key, legs: seq<Key>, quantity: real, f: Fill, g: Fill) {
    Fresh(s, list, legs, quantity) && quantity < Total(FillRound(FillRound(s, f), g).books.orders, legs)
  }

  /** From a fresh list of two legs: one completes, the other is cancelled, and a fill that reaches it still is
      stored. */
  lemma LateFillExceeds()
    ensures exists s, list, legs, quantity, f, g :: Exceeds(s, list, legs, quantity, f, g)
  {
    LateFillRun(TwoLegs(), [Key(1, 1), Key(1, 2)], LegFill(1), LegFill(2));
    assert Exceeds(TwoLegs(), Key(1, 5), [Key(1, 1), Key(1, 2)], 1.0, LegFill(1), LegFill(2));
  }
}
