/** Contingent order lists: children held back until their parent fills, siblings cancelled or resized as one fills. */
module OrderLists {
  import opened Model
  import opened OrderCache
  import EM = ExecutionManager

  /** A submit command; `accepted` is the outcome of the checks on its own fields. */
  datatype Submit = Submit(account: Id, client: Id, parent: Id, list: Id, venue: Id, accepted: bool) {
    function Parent(): Key {
      Key(account, parent)
    }
  }

  datatype OrderList = OrderList(id: Id, orders: seq<Submit>) {
    predicate Valid() {
      && id != NO_ID && orders != []
      && forall i :: 0 <= i < |orders| ==>
        orders[i].accepted && orders[i].list == id && orders[i].venue == orders[0].venue
    }
  }

  type Held = map<Key, seq<Submit>>

  /** The manager's bookkeeping: children by parent, members by list and fill watermarks by order. */
  datatype Lists = Lists(held: Held, members: map<Key, seq<Id>>, watermarks: map<Key, real>) {
    function Members(k: Key): seq<Id> {
      if k in members then members[k] else []
    }

    function Mark(k: Key): real {
      if k in watermarks then watermarks[k] else 0.0
    }
  }

  datatype Reference = Reference(account: Id, instrument: Id, client: Id, order: Id) {
    function At(): Key {
      Key(account, order)
    }
  }

  datatype Resize = Resize(target: Reference, quantity: real)

  datatype Actions = Actions(submit: seq<Submit>, resize: seq<Resize>, cancel: seq<Reference>)

  const NO_ACTIONS := Actions([], [], [])

  datatype Step = Step(lists: Lists, actions: Actions)

  function Refer(o: Order): Reference {
    Reference(o.account, o.instrument, o.client, o.order)
  }

  function Children(held: Held, k: Key): seq<Submit> {
    if k in held then held[k] else []
  }

  // ----- Indexing a list -----

  function Join(l: Lists, x: Submit): Lists {
    var k := Key(x.account, x.list);
    l.(members := l.members[k := l.Members(k) + [x.client]],
       held := if x.parent == NO_ID then l.held else l.held[x.Parent() := Children(l.held, x.Parent()) + [x]])
  }

  function JoinAll(l: Lists, xs: seq<Submit>): Lists {
    if xs == [] then l else Join(JoinAll(l, xs[..|xs| - 1]), xs[|xs| - 1])
  }

  // ----- Progress of one order -----

  /** The other members that are cached and open, in the order of the list. */
  ghost function Siblings(orders: Orders, o: Order, members: seq<Id>): seq<Order> {
    if members == [] then []
    else
      var before, client := Siblings(orders, o, members[..|members| - 1]), members[|members| - 1];
      var sibling := EM.ByClient(orders, Key(o.account, client));
      if client == o.client || sibling.None? || !sibling.value.status.IsOpen() then before else before + [sibling.value]
  }

  /** What a fill of `delta` elsewhere asks of a sibling. */
  function Cut(a: Actions, sibling: Order, delta: real): Actions {
    var next := sibling.quantity - delta;
    if next <= 0.0 || next <= sibling.filled then a.(cancel := a.cancel + [Refer(sibling)])
    else if next == sibling.quantity then a
    else a.(resize := a.resize + [Resize(Refer(sibling), next)])
  }

  function CutAll(siblings: seq<Order>, delta: real): Actions {
    if siblings == [] then NO_ACTIONS
    else Cut(CutAll(siblings[..|siblings| - 1], delta), siblings[|siblings| - 1], delta)
  }

  function References(os: seq<Order>): seq<Reference> {
    seq(|os|, i requires 0 <= i < |os| => Refer(os[i]))
  }

  ghost function OuoProgress(l: Lists, orders: Orders, o: Order): Step {
    var previous := l.Mark(o.At());
    if o.filled <= 0.0 || o.filled <= previous then Step(l, NO_ACTIONS)
    else Step(l.(watermarks := l.watermarks[o.At() := o.filled]),
              CutAll(Siblings(orders, o, l.Members(Key(o.account, o.list))), o.filled - previous))
  }

  /** A parent that ended without filling takes its held children with it. */
  function Discard(held: Held, o: Order): Held {
    if o.status.IsTerminal() && !o.status.Filled? then held - {Key(o.account, o.client)} else held
  }

  ghost function Respond(l: Lists, orders: Orders, o: Order): Step {
    var siblings := Siblings(orders, o, l.Members(Key(o.account, o.list)));
    var ouo := if o.list != NO_ID && o.contingency.Ouo? then OuoProgress(l, orders, o) else Step(l, NO_ACTIONS);
    if !o.status.Filled? then ouo
    else
      var parent := Key(o.account, o.client);
      Step(ouo.lists.(held := l.held - {parent}),
           ouo.actions.(submit := Children(l.held, parent),
                        cancel := if o.list != NO_ID && o.contingency.Oco? then References(siblings)
                          else ouo.actions.cancel))
  }

  datatype ListStatus = ListInitialized | ListOpen | ListClosed

  function DeriveStatus(openCount: nat, terminalCount: nat, heldCount: nat): ListStatus {
    if openCount > 0 || heldCount > 0 then ListOpen
    else if terminalCount > 0 then ListClosed
    else ListInitialized
  }

  ghost predicate Holds(held: Held, list: Key) {
    exists k, i :: k in held && k.account == list.account && 0 <= i < |held[k]| && held[k][i].list == list.id
  }

  predicate InList(o: Order, list: Key) {
    o.account == list.account && o.list == list.id
  }

  /** The list has a held child or an open cached order. */
  ghost predicate IsOpen(l: Lists, orders: Orders, list: Key) {
    Holds(l.held, list) || exists k :: k in orders && InList(orders[k], list) && orders[k].status.IsOpen()
  }

  /** The list has neither, but an order that has ended. */
  ghost predicate IsClosed(l: Lists, orders: Orders, list: Key) {
    && list in l.members && !IsOpen(l, orders, list)
    && exists k :: k in orders && InList(orders[k], list) && orders[k].status.IsTerminal()
  }

  function Other(xs: seq<Submit>, list: Id): seq<Submit> {
    if xs == [] then []
    else
      var before, x := Other(xs[..|xs| - 1], list), xs[|xs| - 1];
      if x.list != list then before + [x] else before
  }

  /** Drops the children of a list, and the entries that empties. */
  function DropChildren(held: Held, list: Key): Held {
    map k | k in held && (k.account != list.account || Other(held[k], list.id) != [])
      :: if k.account == list.account then Other(held[k], list.id) else held[k]
  }

  function DropMarks(watermarks: map<Key, real>, orders: Orders, list: Key): map<Key, real> {
    map k | k in watermarks && !(k in orders && InList(orders[k], list)) :: watermarks[k]
  }

  ghost function Cleanup(l: Lists, orders: Orders, list: Key): Lists {
    if list.id == NO_ID || !IsClosed(l, orders, list) then l
    else l.(held := DropChildren(l.held, list), watermarks := DropMarks(l.watermarks, orders, list))
  }

  /** A report on an order of a list: discard, resize, release and cancel, then clean up. */
  ghost function Progress(l: Lists, orders: Orders, o: Order): Step {
    if !o.Valid() then Step(l, NO_ACTIONS)
    else
      var step := Respond(l.(held := Discard(l.held, o)), orders, o);
      step.(lists := Cleanup(step.lists, orders, Key(o.account, o.list)))
  }

  // ----- Held children are conserved -----

  /** Children are filed under their parent, and no entry is empty. */
  ghost predicate Tidy(held: Held) {
    forall k :: k in held ==> held[k] != [] && forall i :: 0 <= i < |held[k]| ==>
      held[k][i].Parent() == k && k.id != NO_ID
  }

  lemma {:induction false} OtherIsAll(xs: seq<Submit>, list: Id)
    requires forall i :: 0 <= i < |xs| ==> xs[i].list != list
    ensures Other(xs, list) == xs
  {
    if xs != [] { OtherIsAll(xs[..|xs| - 1], list); }
  }

  /** A list closes only once it holds no child, so closing it drops none. */
  lemma CleanupKeepsHeld(l: Lists, orders: Orders, list: Key)
    requires Tidy(l.held)
    ensures Cleanup(l, orders, list).held == l.held
  {
    if list.id != NO_ID && IsClosed(l, orders, list) {
      forall k | k in l.held && k.account == list.account ensures Other(l.held[k], list.id) == l.held[k] {
        OtherIsAll(l.held[k], list.id);
      }
      assert DropChildren(l.held, list) == l.held;
    }
  }

  lemma {:induction false} JoinAllTidy(l: Lists, xs: seq<Submit>)
    requires Tidy(l.held)
    ensures Tidy(JoinAll(l, xs).held)
  {
    if xs != [] { JoinAllTidy(l, xs[..|xs| - 1]); }
  }

  /** How many copies of a child are waiting for their parent. */
  ghost function Waiting(held: Held, x: Submit): nat {
    multiset(Children(held, x.Parent()))[x]
  }

  lemma {:induction false} JoinAllHolds(l: Lists, xs: seq<Submit>, x: Submit)
    requires x.parent != NO_ID
    ensures Waiting(JoinAll(l, xs).held, x) == Waiting(l.held, x) + multiset(xs)[x]
  {
    if xs != [] {
      var before, last := xs[..|xs| - 1], xs[|xs| - 1];
      JoinAllHolds(l, before, x);
      assert xs == before + [last];
      assert multiset(Children(JoinAll(l, before).held, last.Parent()) + [last])[x]
          == multiset(Children(JoinAll(l, before).held, last.Parent()))[x] + multiset([last])[x];
    }
  }

  /** One thing that happens to the manager: a list is indexed, or an order report comes in on some cache. */
  datatype Event = Indexed(list: OrderList) | Reported(orders: Orders, order: Order)

  ghost function Handle(l: Lists, e: Event): Step {
    match e
    case Indexed(list) => Step(if list.Valid() then JoinAll(l, list.orders) else l, NO_ACTIONS)
    case Reported(orders, o) => Progress(l, orders, o)
  }

  /** The children an event hands over, and those it discards because their parent ended unfilled. */
  ghost function Given(e: Event): multiset<Submit> {
    if e.Indexed? && e.list.Valid() then multiset(e.list.orders) else multiset{}
  }

  ghost function Dropped(l: Lists, e: Event): multiset<Submit> {
    if e.Reported? && e.order.Valid() && e.order.status.IsTerminal() && !e.order.status.Filled?
    then multiset(Children(l.held, Key(e.order.account, e.order.client))) else multiset{}
  }

  /** The manager's state after a run, and the children handed over, released and discarded on the way. */
  datatype Ledger = Ledger(lists: Lists, indexed: multiset<Submit>, released: multiset<Submit>,
    discarded: multiset<Submit>)

  ghost function Record(b: Ledger, e: Event): Ledger {
    var step := Handle(b.lists, e);
    Ledger(step.lists, b.indexed + Given(e), b.released + multiset(step.actions.submit),
      b.discarded + Dropped(b.lists, e))
  }

  const EMPTY := Ledger(Lists(map[], map[], map[]), multiset{}, multiset{}, multiset{})

  /** The ledger after more events. */
  ghost function Run(b: Ledger, events: seq<Event>): Ledger {
    if events == [] then b else Record(Run(b, events[..|events| - 1]), events[|events| - 1])
  }

  function Ended(held: Held, o: Order): Held {
    if o.status.IsTerminal() then held - {Key(o.account, o.client)} else held
  }

  lemma EndedTidy(held: Held, o: Order)
    requires Tidy(held)
    ensures Tidy(Ended(held, o))
  {
  }

  lemma RespondHeld(l: Lists, orders: Orders, o: Order)
    ensures var step := Respond(l.(held := Discard(l.held, o)), orders, o);
            && step.lists.held == Ended(l.held, o)
            && step.actions.submit == if o.status.Filled? then Children(l.held, Key(o.account, o.client)) else []
  {
    CutsNothing(Siblings(orders, o, l.Members(Key(o.account, o.list))), o.filled - l.Mark(o.At()));
  }

  /** A valid report leaves every entry of the held children alone but, when the order has ended, its own. */
  lemma ProgressHeld(l: Lists, orders: Orders, o: Order)
    requires Tidy(l.held)
    ensures var step := Progress(l, orders, o);
            && step.lists.held == (if o.Valid() then Ended(l.held, o) else l.held)
            && step.actions.submit == if o.Valid() && o.status.Filled? then Children(l.held, Key(o.account, o.client))
              else []
  {
    RespondHeld(l, orders, o);
    EndedTidy(l.held, o);
    CleanupKeepsHeld(Respond(l.(held := Discard(l.held, o)), orders, o).lists, orders, Key(o.account, o.list));
  }

  lemma {:induction false} CutsNothing(siblings: seq<Order>, delta: real)
    ensures CutAll(siblings, delta).submit == []
  {
    if siblings != [] { CutsNothing(siblings[..|siblings| - 1], delta); }
  }

  lemma EventConserves(l: Lists, e: Event, x: Submit)
    requires x.parent != NO_ID && Tidy(l.held)
    ensures Waiting(Handle(l, e).lists.held, x) + multiset(Handle(l, e).actions.submit)[x] + Dropped(l, e)[x]
         == Waiting(l.held, x) + Given(e)[x]
    ensures Tidy(Handle(l, e).lists.held)
  {
    match e
    case Indexed(list) => if list.Valid() { JoinAllTidy(l, list.orders); JoinAllHolds(l, list.orders, x); }
    case Reported(orders, o) =>
      ProgressHeld(l, orders, o);
      EndedTidy(l.held, o);
      if x.Parent() != Key(o.account, o.client) { ForeignWaits(l.held, Key(o.account, o.client), x); }
  }

  /** A child is waiting, released or discarded as many times in all as it was indexed. */
  ghost predicate Conserved(b: Ledger, x: Submit) {
    Tidy(b.lists.held) && Waiting(b.lists.held, x) + b.released[x] + b.discarded[x] == b.indexed[x]
  }

  lemma RecordConserves(b: Ledger, e: Event, x: Submit)
    requires x.parent != NO_ID && Conserved(b, x)
    ensures Conserved(Record(b, e), x)
    ensures b.released[x] <= Record(b, e).released[x] && b.discarded[x] <= Record(b, e).discarded[x]
  {
    EventConserves(b.lists, e, x);
  }

  /** Held children are conserved over any run, and what has been released or discarded stays so. */
  lemma {:induction false} ChildrenConserved(b: Ledger, events: seq<Event>, x: Submit)
    requires x.parent != NO_ID && Conserved(b, x)
    ensures Conserved(Run(b, events), x)
    ensures b.released[x] <= Run(b, events).released[x] && b.discarded[x] <= Run(b, events).discarded[x]
  {
    if events != [] {
      ChildrenConserved(b, events[..|events| - 1], x);
      RecordConserves(Run(b, events[..|events| - 1]), events[|events| - 1], x);
    }
  }

  /** A list indexed once: each of its children is waiting, was released once, or was discarded, and a child that has
      left never moves again. */
  lemma GoneForGood(events: seq<Event>, later: seq<Event>, x: Submit)
    requires x.parent != NO_ID && Run(Run(EMPTY, events), later).indexed[x] == 1
    ensures var b, c := Run(EMPTY, events), Run(Run(EMPTY, events), later);
            && Waiting(c.lists.held, x) + c.released[x] + c.discarded[x] == 1
            && (b.released[x] + b.discarded[x] == 1 ==>
              c.released[x] == b.released[x] && c.discarded[x] == b.discarded[x])
  {
    ChildrenConserved(EMPTY, events, x);
    ChildrenConserved(Run(EMPTY, events), later, x);
  }

  /** A child is released only by its parent's fill, and only if it was waiting. */
  lemma ReleaseNeedsFill(l: Lists, orders: Orders, o: Order, x: Submit)
    requires Tidy(l.held) && x in Progress(l, orders, o).actions.submit
    ensures o.status.Filled? && x.Parent() == Key(o.account, o.client) && 0 < Waiting(l.held, x)
    ensures Waiting(Progress(l, orders, o).lists.held, x) == 0
  {
    ProgressHeld(l, orders, o);
  }

  lemma ForeignWaits(held: Held, k: Key, x: Submit)
    requires Tidy(held) && x.Parent() != k
    ensures multiset(Children(held, k))[x] == 0
  {
  }

  // ----- One cancels the other -----

  lemma {:induction false} SiblingsAre(orders: Orders, o: Order, members: seq<Id>, r: Order)
    ensures r in Siblings(orders, o, members) <==>
              exists i :: 0 <= i < |members| && members[i] != o.client && r.status.IsOpen()
                          && EM.ByClient(orders, Key(o.account, members[i])) == Some(r)
  {
    if members != [] {
      var before := members[..|members| - 1];
      SiblingsAre(orders, o, before, r);
      assert forall i :: 0 <= i < |before| ==> before[i] == members[i];
    }
  }

  /** A filled order of a one-cancels-the-other list cancels exactly its cached, open fellow members. */
  lemma OcoCancelsTheOthers(l: Lists, orders: Orders, o: Order, r: Reference)
    requires o.Valid() && o.status.Filled? && o.list != NO_ID && o.contingency.Oco?
    ensures r in Progress(l, orders, o).actions.cancel <==>
              exists s, i :: Fellow(l, orders, o, s, i) && Refer(s) == r
    ensures Progress(l, orders, o).actions.resize == []
  {
    var members := l.Members(Key(o.account, o.list));
    var siblings := Siblings(orders, o, members);
    assert Progress(l, orders, o).actions.cancel == References(siblings);
    if r in References(siblings) {
      var j :| 0 <= j < |siblings| && References(siblings)[j] == r;
      assert siblings[j] in siblings;
      SiblingsAre(orders, o, members, siblings[j]);
      var i :| 0 <= i < |members| && members[i] != o.client
        && EM.ByClient(orders, Key(o.account, members[i])) == Some(siblings[j]);
      assert Fellow(l, orders, o, siblings[j], i);
    }
    if s, i :| Fellow(l, orders, o, s, i) && Refer(s) == r {
      SiblingsAre(orders, o, members, s);
      var j :| 0 <= j < |siblings| && siblings[j] == s;
      assert References(siblings)[j] == r;
    }
  }

  ghost predicate Fellow(l: Lists, orders: Orders, o: Order, s: Order, i: nat) {
    var members := l.Members(Key(o.account, o.list));
    i < |members| && members[i] != o.client && EM.ByClient(orders, Key(o.account, members[i])) == Some(s)
      && s.status.IsOpen()
  }

  // ----- When nothing is asked, and what one-updates-the-other asks -----

  /** An order asks something of its fellows only by filling in a list that says so: unless it is filled, only a
      one-updates-the-other order asks anything at all. */
  lemma AsksNothing(l: Lists, orders: Orders, o: Order)
    ensures !o.Valid() || (!o.status.Filled? && !o.contingency.Ouo?) ==> Progress(l, orders, o).actions == NO_ACTIONS
    ensures o.list == NO_ID || !(o.contingency.Oco? || o.contingency.Ouo?) ==>
              Progress(l, orders, o).actions.cancel == [] && Progress(l, orders, o).actions.resize == []
    ensures o.contingency.Ouo? && (o.filled <= 0.0 || o.filled <= l.Mark(o.At())) ==>
              Progress(l, orders, o).actions.cancel == [] && Progress(l, orders, o).actions.resize == []
  {
  }

  /** Taking `delta` from the sibling leaves it nothing more to fill. */
  predicate Spent(s: Order, delta: real) {
    s.quantity <= delta || s.quantity - s.filled <= delta
  }

  lemma {:induction false} CutsWhom(siblings: seq<Order>, delta: real, r: Reference, x: Resize)
    requires 0.0 < delta
    ensures r in CutAll(siblings, delta).cancel <==> exists s :: s in siblings && Refer(s) == r && Spent(s, delta)
    ensures x in CutAll(siblings, delta).resize <==>
              exists s :: s in siblings && x == Resize(Refer(s), s.quantity - delta) && !Spent(s, delta)
  {
    if siblings != [] {
      var n := |siblings| - 1;
      CutsWhom(siblings[..n], delta, r, x);
      assert siblings == siblings[..n] + [siblings[n]];
    }
  }

  lemma FellowIff(l: Lists, orders: Orders, o: Order, s: Order)
    ensures s in Siblings(orders, o, l.Members(Key(o.account, o.list))) <==> exists i :: Fellow(l, orders, o, s, i)
  {
    var members := l.Members(Key(o.account, o.list));
    SiblingsAre(orders, o, members, s);
    if i :| 0 <= i < |members| && members[i] != o.client && s.status.IsOpen()
            && EM.ByClient(orders, Key(o.account, members[i])) == Some(s) {
      assert Fellow(l, orders, o, s, i);
    }
  }

  /** A one-updates-the-other order that has filled `delta` more takes it from exactly its cached, open fellow members:
      it cancels those it leaves nothing to fill and resizes the others. */
  lemma OuoCutsTheOthers(l: Lists, orders: Orders, o: Order, delta: real, r: Reference, x: Resize)
    requires o.Valid() && o.list != NO_ID && o.contingency.Ouo? && 0.0 < o.filled
    requires delta == o.filled - l.Mark(o.At()) && 0.0 < delta
    ensures r in Progress(l, orders, o).actions.cancel <==>
              exists s, i :: Fellow(l, orders, o, s, i) && Refer(s) == r && Spent(s, delta)
    ensures x in Progress(l, orders, o).actions.resize <==>
              exists s, i :: Fellow(l, orders, o, s, i) && x == Resize(Refer(s), s.quantity - delta) && !Spent(s, delta)
  {
    CutsWhom(Siblings(orders, o, l.Members(Key(o.account, o.list))), delta, r, x);
    forall s ensures s in Siblings(orders, o, l.Members(Key(o.account, o.list))) <==>
                       exists i :: Fellow(l, orders, o, s, i) {
      FellowIff(l, orders, o, s);
    }
  }

  /** A watermark follows the filled quantity of its one-updates-the-other order upwards and goes with its list; no
      report touches the members. */
  lemma MarksFollow(l: Lists, orders: Orders, o: Order, k: Key)
    requires Tidy(l.held)
    ensures var t, list := Progress(l, orders, o).lists, Key(o.account, o.list);
            && t.members == l.members
            && t.Mark(k) ==
                 if o.Valid() && o.list != NO_ID && IsClosed(t, orders, list) && k in orders && InList(orders[k], list)
                 then 0.0
                 else if && o.Valid() && o.list != NO_ID && o.contingency.Ouo? && k == o.At()
                         && 0.0 < o.filled && l.Mark(k) < o.filled
                 then o.filled else l.Mark(k)
  {
    if o.Valid() {
      var step := Respond(l.(held := Discard(l.held, o)), orders, o);
      RespondHeld(l, orders, o);
      EndedTidy(l.held, o);
      RespondMarks(l.(held := Discard(l.held, o)), orders, o, k);
      CleanupMarks(step.lists, orders, Key(o.account, o.list), k);
    }
  }

  lemma RespondMarks(l: Lists, orders: Orders, o: Order, k: Key)
    ensures var t := Respond(l, orders, o).lists;
            && t.members == l.members
            && t.Mark(k) == if o.list != NO_ID && o.contingency.Ouo? && k == o.At() && 0.0 < o.filled
                               && l.Mark(k) < o.filled
                            then o.filled else l.Mark(k)
  {
  }

  lemma CleanupMarks(l: Lists, orders: Orders, list: Key, k: Key)
    requires Tidy(l.held)
    ensures var t := Cleanup(l, orders, list);
            && t.members == l.members && (IsClosed(t, orders, list) <==> IsClosed(l, orders, list))
            && t.Mark(k) == if list.id != NO_ID && IsClosed(l, orders, list) && k in orders && InList(orders[k], list)
                            then 0.0 else l.Mark(k)
  {
    CleanupKeepsHeld(l, orders, list);
  }

  // ----- Indexing keeps the order -----

  function ClientsOf(xs: seq<Submit>, list: Key): seq<Id> {
    if xs == [] then []
    else
      var before, x := ClientsOf(xs[..|xs| - 1], list), xs[|xs| - 1];
      if x.account == list.account && x.list == list.id then before + [x.client] else before
  }

  function ChildrenOf(xs: seq<Submit>, parent: Key): seq<Submit> {
    if xs == [] then []
    else
      var before, x := ChildrenOf(xs[..|xs| - 1], parent), xs[|xs| - 1];
      if x.account == parent.account && x.parent == parent.id && x.parent != NO_ID then before + [x] else before
  }

  /** Indexing a list appends its members to the list and its children to their parents, in the order of the list, and
      touches no watermark. */
  lemma {:induction false} IndexedInOrder(l: Lists, xs: seq<Submit>, k: Key)
    ensures JoinAll(l, xs).Members(k) == l.Members(k) + ClientsOf(xs, k)
    ensures Children(JoinAll(l, xs).held, k) == Children(l.held, k) + ChildrenOf(xs, k)
    ensures JoinAll(l, xs).watermarks == l.watermarks
  {
    if xs != [] { IndexedInOrder(l, xs[..|xs| - 1], k); }
  }
}
