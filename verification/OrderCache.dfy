/**
 The order half of the cache: one primary map of orders and six secondary indexes that `PutOrder` and `Purge`
 keep equal to a full scan of that map.
 */
module OrderCache {
  import opened Model
  import opened Sorting

  type Orders = map<Key, Order>
  type Aliases = map<Key, Id>
  type Groups = map<Key, set<Id>>

  /** The two identifiers that name at most one order of an account. */
  datatype Alias = ClientAlias | VenueAlias

  function AliasOf(a: Alias, o: Order): Id {
    match a
    case ClientAlias => o.client
    case VenueAlias => o.venue
  }

  /** The four attributes an index groups orders by. */
  datatype Attribute = StrategyAttribute | PositionAttribute | ListAttribute | SpawnAttribute

  function AttributeOf(a: Attribute, o: Order): Id {
    match a
    case StrategyAttribute => o.strategy
    case PositionAttribute => o.position
    case ListAttribute => o.list
    case SpawnAttribute => o.spawn
  }

  ghost predicate WellKeyed(orders: Orders) {
    forall k :: k in orders ==> orders[k].At() == k && orders[k].Valid()
  }

  /** Both directions of "the index is what a scan of the orders gives", so an alias names one order. */
  ghost predicate ExactAliases(index: Aliases, a: Alias, orders: Orders) {
    && (forall k :: k in index ==>
          k.id != NO_ID && Key(k.account, index[k]) in orders && AliasOf(a, orders[Key(k.account, index[k])]) == k.id)
    && (forall k :: k in orders && AliasOf(a, orders[k]) != NO_ID ==>
          var name := Key(k.account, AliasOf(a, orders[k])); name in index && index[name] == k.id)
  }

  ghost predicate ExactGroups(index: Groups, a: Attribute, orders: Orders) {
    && (forall k :: k in index ==> k.id != NO_ID && index[k] != {})
    && (forall k, id :: k in index && id in index[k] ==>
          Key(k.account, id) in orders && AttributeOf(a, orders[Key(k.account, id)]) == k.id)
    && (forall k :: k in orders && AttributeOf(a, orders[k]) != NO_ID ==>
          var group := Key(k.account, AttributeOf(a, orders[k])); group in index && k.id in index[group])
  }

  /** The full scans the indexes stand for. */
  ghost function ScanGroup(orders: Orders, a: Attribute, group: Key): set<Id> {
    set k | k in orders && k.account == group.account && AttributeOf(a, orders[k]) == group.id :: k.id
  }

  ghost predicate Names(orders: Orders, a: Alias, name: Key, k: Key) {
    k in orders && k.account == name.account && AliasOf(a, orders[k]) == name.id
  }

  function AddGroup(index: Groups, group: Key, order: Id): Groups {
    if group.id == NO_ID then index
    else index[group := (if group in index then index[group] else {}) + {order}]
  }

  function RemoveGroup(index: Groups, group: Key, order: Id): Groups {
    if group.id == NO_ID || group !in index then index
    else if index[group] - {order} == {} then index - {group}
    else index[group := index[group] - {order}]
  }

  function RemoveAlias(index: Aliases, name: Key): Aliases {
    if name.id == NO_ID then index else index - {name}
  }

  function AddAlias(index: Aliases, name: Key, order: Id): Aliases {
    if name.id == NO_ID then index else index[name := order]
  }

  lemma RemoveGroupExact(index: Groups, a: Attribute, orders: Orders, k: Key)
    requires ExactGroups(index, a, orders) && k in orders
    ensures ExactGroups(RemoveGroup(index, Key(k.account, AttributeOf(a, orders[k])), k.id), a, orders - {k})
  {
    var index' := RemoveGroup(index, Key(k.account, AttributeOf(a, orders[k])), k.id);
    forall g, id | g in index' && id in index'[g]
      ensures Key(g.account, id) in orders - {k} && AttributeOf(a, orders[Key(g.account, id)]) == g.id
    {
      assert g in index && id in index[g];
    }
    forall j | j in orders - {k} && AttributeOf(a, orders[j]) != NO_ID
      ensures var group := Key(j.account, AttributeOf(a, orders[j])); group in index' && j.id in index'[group]
    {
      var group := Key(j.account, AttributeOf(a, orders[j]));
      assert group in index && j.id in index[group];
      assert j.account == k.account ==> j.id in index[group] - {k.id};
    }
  }

  lemma AddGroupExact(index: Groups, a: Attribute, orders: Orders, k: Key, o: Order)
    requires ExactGroups(index, a, orders) && k !in orders
    ensures ExactGroups(AddGroup(index, Key(k.account, AttributeOf(a, o)), k.id), a, orders[k := o])
  {
  }

  lemma RemoveAliasExact(index: Aliases, a: Alias, orders: Orders, k: Key)
    requires ExactAliases(index, a, orders) && k in orders
    ensures ExactAliases(RemoveAlias(index, Key(k.account, AliasOf(a, orders[k]))), a, orders - {k})
  {
  }

  lemma AddAliasExact(index: Aliases, a: Alias, orders: Orders, k: Key, o: Order)
    requires ExactAliases(index, a, orders) && k !in orders && Key(k.account, AliasOf(a, o)) !in index
    ensures ExactAliases(AddAlias(index, Key(k.account, AliasOf(a, o)), k.id), a, orders[k := o])
  {
  }

  /** An exact alias index leads to the only order that shares the alias. */
  lemma EvictedIsSharer(index: Aliases, a: Alias, o: Order, orders: Orders)
    requires ExactAliases(index, a, orders) && WellKeyed(orders) && o.At() !in orders
    ensures var name := Key(o.account, AliasOf(a, o));
            WithoutSharers(a, o, orders) == if name in index then orders - {Key(o.account, index[name])} else orders
  {
  }

  /** The indexes answer every lookup as a full scan of the orders would, and hold nothing else. */
  lemma ExactIsScan(index: Groups, a: Attribute, orders: Orders, group: Key)
    requires ExactGroups(index, a, orders)
    ensures group in index <==> group.id != NO_ID && ScanGroup(orders, a, group) != {}
    ensures group in index ==> index[group] == ScanGroup(orders, a, group)
  {
    var scan := ScanGroup(orders, a, group);
    assert group.id != NO_ID && group !in index ==> forall k :: k in orders && k.account == group.account ==>
      AttributeOf(a, orders[k]) != group.id;
    if group in index {
      forall id | id in index[group] ensures id in scan { assert Key(group.account, id) in orders; }
      var id :| id in index[group];
      assert id in scan;
    }
  }

  /** No two orders of an account share a non-empty client or venue id. */
  lemma AliasesUnique(index: Aliases, a: Alias, orders: Orders, j: Key, k: Key)
    requires ExactAliases(index, a, orders)
    requires j in orders && k in orders && j.account == k.account
    requires AliasOf(a, orders[j]) == AliasOf(a, orders[k]) != NO_ID
    ensures j == k
  {
    assert index[Key(j.account, AliasOf(a, orders[j]))] == j.id;
  }

  function Normalize(o: Order): (r: Order)
    ensures r == o.(filled := r.filled, leaves := r.leaves)
    ensures r.status.Filled? ==> r.leaves == 0.0 && (0.0 < r.quantity && o.filled == 0.0 ==> r.filled == r.quantity)
    ensures r.status.IsOpen() && 0.0 < r.quantity && o.leaves == 0.0 ==> r.leaves + r.filled == r.quantity
    ensures !r.status.Filled? ==> r.filled == o.filled
  {
    var a := if 0.0 < o.quantity && o.leaves == 0.0 && o.status.IsOpen() then o.(leaves := o.quantity - o.filled)
      else o;
    var b := if a.status.Filled? && 0.0 < a.quantity && a.filled == 0.0 then a.(filled := a.quantity) else a;
    if b.status.Filled? then b.(leaves := 0.0) else b
  }

  /** Another order of the account that holds the same client (or venue) id. */
  predicate SharesAlias(a: Alias, o: Order, other: Order) {
    other.account == o.account && other.order != o.order && AliasOf(a, o) != NO_ID && AliasOf(a, other) == AliasOf(a, o)
  }

  ghost function WithoutSharers(a: Alias, o: Order, orders: Orders): Orders {
    map k | k in orders && !SharesAlias(a, o, orders[k]) :: orders[k]
  }

  /** Storing `o` displaces every other order of its account that holds its client or venue id. */
  function Stored(orders: Orders, o: Order): Orders {
    (map k | k in orders && !SharesAlias(ClientAlias, o, orders[k])
      && !SharesAlias(VenueAlias, o, orders[k]) :: orders[k])[o.At() := o]
  }

  lemma EvictionsStore(orders: Orders, o: Order)
    ensures WithoutSharers(VenueAlias, o, WithoutSharers(ClientAlias, o, orders))[o.At() := o] == Stored(orders, o)
  {
  }

  predicate Closed(o: Order) {
    !o.status.NoStatus? && !o.status.IsOpen()
  }

  function Age(o: Order): Rank {
    Rank(o.updated, o.order)
  }

  /** The six secondary indexes of the cache. */
  datatype Indexes = Indexes(
    clients: Aliases, venues: Aliases, strategies: Groups, positions: Groups, lists: Groups, spawns: Groups)
  {
    function AliasIndex(a: Alias): Aliases {
      match a
      case ClientAlias => clients
      case VenueAlias => venues
    }

    function GroupIndex(a: Attribute): Groups {
      match a
      case StrategyAttribute => strategies
      case PositionAttribute => positions
      case ListAttribute => lists
      case SpawnAttribute => spawns
    }

    function Remove(o: Order): Indexes {
      Indexes(RemoveAlias(clients, Key(o.account, o.client)),
              RemoveAlias(venues, Key(o.account, o.venue)),
              RemoveGroup(strategies, Key(o.account, o.strategy), o.order),
              RemoveGroup(positions, Key(o.account, o.position), o.order),
              RemoveGroup(lists, Key(o.account, o.list), o.order),
              RemoveGroup(spawns, Key(o.account, o.spawn), o.order))
    }

    function Add(o: Order): Indexes {
      Indexes(AddAlias(clients, Key(o.account, o.client), o.order),
              AddAlias(venues, Key(o.account, o.venue), o.order),
              AddGroup(strategies, Key(o.account, o.strategy), o.order),
              AddGroup(positions, Key(o.account, o.position), o.order),
              AddGroup(lists, Key(o.account, o.list), o.order),
              AddGroup(spawns, Key(o.account, o.spawn), o.order))
    }

    ghost predicate Exact(orders: Orders) {
      && (forall a :: ExactAliases(AliasIndex(a), a, orders))
      && (forall a :: ExactGroups(GroupIndex(a), a, orders))
    }

    lemma RemoveExact(o: Order, orders: Orders)
      requires Exact(orders) && o.At() in orders && orders[o.At()] == o
      ensures Remove(o).Exact(orders - {o.At()})
    {
      forall a: Alias ensures ExactAliases(Remove(o).AliasIndex(a), a, orders - {o.At()}) {
        RemoveAliasExact(AliasIndex(a), a, orders, o.At());
      }
      forall a: Attribute ensures ExactGroups(Remove(o).GroupIndex(a), a, orders - {o.At()}) {
        RemoveGroupExact(GroupIndex(a), a, orders, o.At());
      }
    }

    lemma AddExact(o: Order, orders: Orders)
      requires Exact(orders) && WellKeyed(orders) && o.At() !in orders
      requires forall a, k :: k in orders ==> !SharesAlias(a, o, orders[k])
      ensures Add(o).Exact(orders[o.At() := o])
    {
      forall a: Alias ensures ExactAliases(Add(o).AliasIndex(a), a, orders[o.At() := o]) {
        EvictedIsSharer(AliasIndex(a), a, o, orders);
        AddAliasExact(AliasIndex(a), a, orders, o.At(), o);
      }
      forall a: Attribute ensures ExactGroups(Add(o).GroupIndex(a), a, orders[o.At() := o]) {
        AddGroupExact(GroupIndex(a), a, orders, o.At(), o);
      }
    }
  }

  ghost function ClosedKeys(orders: Orders, account: Id): set<Key> {
    set k | k in orders && k.account == account && orders[k].status.IsTerminal()
  }

  /** `gone` holds the least recently updated closed orders of the account, all but `keep` of them. */
  ghost predicate OldestClosed(orders: Orders, account: Id, keep: int, gone: set<Key>) {
    && gone <= ClosedKeys(orders, account)
    && |gone| == (if 0 <= keep < |ClosedKeys(orders, account)| then |ClosedKeys(orders, account)| - keep else 0)
    && forall j, k :: j in gone && k in ClosedKeys(orders, account) - gone ==> Older(orders[j], orders[k])
  }

  /** Updated earlier or, at the same time, with the smaller id. */
  predicate Older(o: Order, p: Order) {
    o.updated < p.updated || (o.updated == p.updated && o.order < p.order)
  }

  lemma {:induction false} AgesCount(orders: Orders, account: Id, keys: set<Key>)
    requires WellKeyed(orders) && keys <= ClosedKeys(orders, account)
    ensures |set k | k in keys :: Age(orders[k])| == |keys|
  {
    if keys != {} {
      var j :| j in keys;
      AgesCount(orders, account, keys - {j});
      assert (set k | k in keys :: Age(orders[k])) == (set k | k in keys - {j} :: Age(orders[k])) + {Age(orders[j])};
    }
  }

  lemma {:induction false} DistinctCount(s: seq<Key>)
    requires forall i, j :: 0 <= i < j < |s| ==> s[i] != s[j]
    ensures |set k | k in s| == |s|
  {
    if s != [] {
      DistinctCount(s[1..]);
      assert (set k | k in s) == (set k | k in s[1..]) + {s[0]};
    }
  }

  lemma RemovedCount(orders: Orders, gone: set<Key>)
    requires gone <= orders.Keys
    ensures |orders - gone| + |gone| == |orders|
  {
    assert (orders - gone).Keys == orders.Keys - gone;
    assert |orders| == |orders.Keys| && |orders - gone| == |(orders - gone).Keys|;
  }

  /** The first `n` of the closed orders, enumerated by increasing age, are older than the rest. */
  lemma PrefixIsOldest(orders: Orders, closed: set<Key>, ages: seq<Rank>, victims: seq<Key>)
    requires closed <= orders.Keys && |victims| <= |ages|
    requires Enumerates(ages, set k | k in closed :: Age(orders[k]))
    requires forall x :: 0 <= x < |victims| ==> victims[x] in closed && Age(orders[victims[x]]) == ages[x]
    requires forall j, k :: j in closed && k in closed && Age(orders[j]) == Age(orders[k]) ==> j == k
    ensures forall i, j :: 0 <= i < j < |victims| ==> victims[i] != victims[j]
    ensures forall j, k :: j in victims && k in closed && k !in victims ==> Older(orders[j], orders[k])
  {
    forall j, k | j in victims && k in closed && k !in victims ensures Older(orders[j], orders[k]) {
      var x :| 0 <= x < |victims| && victims[x] == j;
      assert Age(orders[k]) in ages;
      assert forall z :: 0 <= z < |victims| ==> ages[z] != Age(orders[k]);
      var y :| |victims| <= y < |ages| && ages[y] == Age(orders[k]);
    }
  }

  method ClosedOrdersToPurge(orders: Orders, account: Id, keep: int) returns (victims: seq<Key>)
    requires WellKeyed(orders)
    ensures forall i, j :: 0 <= i < j < |victims| ==> victims[i] != victims[j]
    ensures OldestClosed(orders, account, keep, set k | k in victims)
  {
    victims := [];
    if keep < 0 { return; }
    var closed := set k | k in orders && k.account == account && Closed(orders[k]);
    assert closed == ClosedKeys(orders, account);
    AgesCount(orders, account, closed);
    var ages := Sort(set k | k in closed :: Age(orders[k]));
    var n := if |ages| <= keep then 0 else |ages| - keep;
    for i := 0 to n
      invariant |victims| == i
      invariant forall x :: 0 <= x < i ==> victims[x] in closed && Age(orders[victims[x]]) == ages[x]
    {
      assert ages[i] in ages;
      victims := victims + [Key(account, ages[i].id)];
    }
    PrefixIsOldest(orders, closed, ages, victims);
    DistinctCount(victims);
  }

  /** Looks up a set of order ids and sorts the orders found. */
  method OrdersById(orders: Orders, account: Id, ids: set<Id>) returns (found: seq<Order>)
    requires WellKeyed(orders)
    ensures forall i, j :: 0 <= i < j < |found| ==> found[i].order < found[j].order
    ensures forall o: Order :: o in found <==>
                o.account == account && o.order in ids && o.At() in orders && orders[o.At()] == o
  {
    var known := set id | id in ids && Key(account, id) in orders;
    var ranks := Sort(set id | id in known :: Rank(0, id));
    found := [];
    for i := 0 to |ranks|
      invariant |found| == i
      invariant forall j :: 0 <= j < i ==>
                    ranks[j].major == 0 && ranks[j].id in known && found[j] == orders[Key(account, ranks[j].id)]
    {
      assert ranks[i] in ranks;
      found := found + [orders[Key(account, ranks[i].id)]];
    }
    forall o: Order | o.account == account && o.order in known && orders[o.At()] == o ensures o in found {
      assert Rank(0, o.order) in ranks;
      var j :| 0 <= j < |ranks| && ranks[j] == Rank(0, o.order);
      assert found[j] == o;
    }
  }

  class Cache {
    var orders: Orders
    var indexes: Indexes

    ghost predicate Valid()
      reads this
    {
      WellKeyed(orders) && indexes.Exact(orders)
    }

    constructor ()
      ensures Valid() && orders == map[]
    {
      orders, indexes := map[], Indexes(map[], map[], map[], map[], map[], map[]);
    }

    /** Drops the order, if any, that already holds an alias of `o`. */
    method Evict(a: Alias, o: Order)
      requires WellKeyed(orders) && o.order != NO_ID && indexes.Exact(orders - {o.At()})
      modifies this
      ensures WellKeyed(orders) && indexes.Exact(orders - {o.At()})
      ensures orders == WithoutSharers(a, o, old(orders))
    {
      ghost var live := orders - {o.At()};
      var name := Key(o.account, AliasOf(a, o));
      var index := indexes.AliasIndex(a);
      EvictedIsSharer(index, a, o, live);
      if name.id != NO_ID && name in index && index[name] != o.order {
        var k := Key(o.account, index[name]);
        indexes.RemoveExact(live[k], live);
        indexes := indexes.Remove(orders[k]);
        orders := orders - {k};
        assert orders - {o.At()} == live - {k};
      }
    }

    method Unindex(k: Key)
      requires Valid()
      modifies this
      ensures orders == old(orders) && indexes.Exact(orders - {k})
    {
      if k in orders {
        indexes.RemoveExact(orders[k], orders);
        indexes := indexes.Remove(orders[k]);
      } else {
        assert orders - {k} == orders;
      }
    }

    method Index(o: Order)
      requires WellKeyed(orders) && indexes.Exact(orders - {o.At()}) && o.Valid()
      requires forall a, k :: k in orders ==> !SharesAlias(a, o, orders[k])
      modifies this
      ensures Valid() && orders == old(orders)[o.At() := o]
    {
      indexes.AddExact(o, orders - {o.At()});
      indexes := indexes.Add(o);
      assert (orders - {o.At()})[o.At() := o] == orders[o.At() := o];
      orders := orders[o.At() := o];
    }

    /** Stores a normalized report; an invalid one changes nothing. */
    method PutOrder(report: Order) returns (ok: bool)
      requires Valid()
      modifies this
      ensures Valid()
      ensures ok == Normalize(report).Valid()
      ensures orders == if ok then Stored(old(orders), Normalize(report)) else old(orders)
    {
      var o := Normalize(report);
      if !o.Valid() { return false; }
      Unindex(o.At());
      Evict(ClientAlias, o);
      Evict(VenueAlias, o);
      Index(o);
      EvictionsStore(old(orders), o);
      ok := true;
    }

    /** An order is found by its alias exactly when a scan would find it. */
    method Lookup(a: Alias, name: Key) returns (found: Option<Order>)
      requires Valid()
      ensures found.Some? ==> Names(orders, a, name, found.value.At()) && orders[found.value.At()] == found.value
      ensures found.None? && name.id != NO_ID ==> forall k :: !Names(orders, a, name, k)
      ensures name.id == NO_ID ==> found.None?
    {
      var index := indexes.AliasIndex(a);
      if name !in index { return None; }
      return Some(orders[Key(name.account, index[name])]);
    }

    /** The orders carrying an attribute, by increasing order id; none carries the empty one. */
    method WithAttribute(a: Attribute, group: Key) returns (found: seq<Order>)
      requires Valid()
      ensures forall i, j :: 0 <= i < j < |found| ==> found[i].order < found[j].order
      ensures forall o: Order :: o in found <==> group.id != NO_ID && o.At() in orders && orders[o.At()] == o
                                                 && o.account == group.account && AttributeOf(a, o) == group.id
    {
      var index := indexes.GroupIndex(a);
      ExactIsScan(index, a, orders, group);
      found := OrdersById(orders, group.account, if group in index then index[group] else {});
    }

    method RemoveOrder(k: Key)
      requires Valid()
      modifies this
      ensures Valid() && orders == old(orders) - {k}
    {
      if k !in orders { return; }
      indexes.RemoveExact(orders[k], orders);
      indexes := indexes.Remove(orders[k]);
      orders := orders - {k};
    }

    /** Keeps the `keep` most recently updated closed orders of the account (all of them when `keep` is negative). */
    method Purge(account: Id, keep: int) returns (purged: nat)
      requires Valid()
      modifies this
      ensures Valid()
      ensures OldestClosed(old(orders), account, keep, old(orders).Keys - orders.Keys)
      ensures orders == old(orders) - (old(orders).Keys - orders.Keys)
      ensures |orders| + purged == |old(orders)|
    {
      var victims := ClosedOrdersToPurge(orders, account, keep);
      ghost var gone := set k | k in victims;
      assert forall k :: k in victims ==> k in gone;
      RemoveOrders(victims);
      assert old(orders).Keys - orders.Keys == gone;
      DistinctCount(victims);
      RemovedCount(old(orders), gone);
      purged := |victims|;
    }

    method RemoveOrders(victims: seq<Key>)
      requires Valid()
      modifies this
      ensures Valid() && orders == old(orders) - (set k | k in victims)
    {
      ghost var gone: set<Key> := {};
      for i := 0 to |victims|
        invariant Valid() && orders == old(orders) - gone
        invariant forall k :: k in gone <==> k in victims[..i]
      {
        RemoveOrder(victims[i]);
        assert victims[..i + 1] == victims[..i] + [victims[i]];
        gone := gone + {victims[i]};
      }
      assert victims[..|victims|] == victims;
      assert gone == set k | k in victims;
    }

    /** The number of alias entries of the account that lead to no order. */
    function InconsistentOrderMappings(account: Id): (count: nat)
      requires Valid()
      reads this
      ensures count == 0
    {
      assert ExactAliases(indexes.AliasIndex(ClientAlias), ClientAlias, orders);
      assert ExactAliases(indexes.AliasIndex(VenueAlias), VenueAlias, orders);
      |set name | name in indexes.clients && name.account == account && Key(account, indexes.clients[name]) !in orders|
      + |set name | name in indexes.venues && name.account == account && Key(account, indexes.venues[name]) !in orders|
    }
  }
}
