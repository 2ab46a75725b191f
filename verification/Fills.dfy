/** Sums over finite maps: the order in which a map is walked does not change a total. */
module Sums {
  import opened Model

  ghost function Total(m: map<Id, real>): real {
    if m == map[] then 0.0 else var k :| k in m; m[k] + Total(m - {k})
  }

  lemma {:induction false} TotalRemove(m: map<Id, real>, k: Id)
    requires k in m
    ensures Total(m) == m[k] + Total(m - {k})
  {
    var j :| j in m && Total(m) == m[j] + Total(m - {j});
    if j != k {
      TotalRemove(m - {j}, k);
      TotalRemove(m - {k}, j);
      assert m - {j} - {k} == m - {k} - {j};
    }
  }

  lemma TotalAdd(m: map<Id, real>, k: Id, v: real)
    requires k !in m
    ensures Total(m[k := v]) == Total(m) + v
  {
    TotalRemove(m[k := v], k);
    assert m[k := v] - {k} == m;
  }

  lemma {:induction false} TotalMonotone(m: map<Id, real>, n: map<Id, real>)
    requires forall k :: k in m ==> k in n && n[k] == m[k]
    requires forall k :: k in n ==> 0.0 < n[k]
    ensures Total(m) <= Total(n)
    ensures m != n ==> Total(m) < Total(n)
    decreases |n|
  {
    if n != map[] {
      var k :| k in n;
      TotalRemove(n, k);
      if k in m {
        TotalRemove(m, k);
        TotalMonotone(m - {k}, n - {k});
        assert m - {k} == n - {k} ==> m == (m - {k})[k := m[k]] == n;
      } else {
        TotalMonotone(m, n - {k});
      }
    }
  }
}

/** The fill half of the cache: stored fills by order, the trade-id index over them, and the deferred fills. */
module Fills {
  import opened Model
  import opened Sorting
  import opened Sums

  type ByTrade = map<Id, Fill>

  function Of(m: map<Key, ByTrade>, k: Key): ByTrade {
    if k in m then m[k] else map[]
  }

  ghost function Quantities(m: ByTrade): map<Id, real> {
    map t | t in m :: m[t].quantity
  }

  function Worth(f: Fill): real {
    f.price * f.quantity
  }

  ghost function Notionals(m: ByTrade): map<Id, real> {
    map t | t in m :: Worth(m[t])
  }

  /** Total quantity and total notional of a set of distinct trades. */
  ghost function Quantity(m: ByTrade): real {
    Total(Quantities(m))
  }

  ghost function Notional(m: ByTrade): real {
    Total(Notionals(m))
  }

  lemma QuantityAdd(m: ByTrade, f: Fill)
    requires f.trade !in m
    ensures Quantity(m[f.trade := f]) == Quantity(m) + f.quantity
    ensures Notional(m[f.trade := f]) == Notional(m) + Worth(f)
  {
    assert Quantities(m[f.trade := f]) == Quantities(m)[f.trade := f.quantity];
    assert Notionals(m[f.trade := f]) == Notionals(m)[f.trade := Worth(f)];
    TotalAdd(Quantities(m), f.trade, f.quantity);
    TotalAdd(Notionals(m), f.trade, Worth(f));
  }

  /** Every fill is filed under its own trade id. */
  ghost predicate Booked(m: ByTrade) {
    forall t :: t in m ==> m[t].trade == t && m[t].Valid()
  }

  /** And belongs to the order it is filed under. */
  ghost predicate Filed(m: ByTrade, k: Key) {
    forall t :: t in m ==> m[t].trade == t && m[t].At() == k && m[t].Valid()
  }

  lemma QuantityMonotone(m: ByTrade, n: ByTrade)
    requires forall t :: t in m ==> t in n && m[t] == n[t]
    requires forall t :: t in n ==> n[t].Valid()
    ensures 0.0 <= Quantity(m) <= Quantity(n)
    ensures m != n ==> Quantity(m) < Quantity(n)
  {
    if m != n {
      var t :| t in n && t !in m;
      assert t in Quantities(n) && t !in Quantities(m);
    }
    TotalMonotone(Quantities(m), Quantities(n));
    TotalMonotone(map[], Quantities(m));
  }

  datatype FillBook = FillBook(stored: map<Key, ByTrade>, trades: map<Key, Fill>, deferred: map<Key, ByTrade>) {
    predicate Has(f: Fill) {
      f.trade in Of(stored, f.At())
    }

    predicate Defers(f: Fill) {
      f.trade in Of(deferred, f.At())
    }

    /** Files a fill that is not filed yet under its order and in the trade-id index. */
    function Put(f: Fill): FillBook {
      if Has(f) then this
      else this.(stored := stored[f.At() := Of(stored, f.At())[f.trade := f]],
        trades := trades[Key(f.account, f.trade) := f])
    }

    function Defer(f: Fill): FillBook {
      if Defers(f) then this else this.(deferred := deferred[f.At() := Of(deferred, f.At())[f.trade := f]])
    }

    function ClearDeferred(k: Key): FillBook {
      this.(deferred := deferred - {k})
    }

    /** The stored fills of an order are its own and are indexed by trade id. */
    ghost predicate OrderIndexed(k: Key) {
      Filed(Of(stored, k), k) && forall t :: t in Of(stored, k) ==>
        Key(k.account, t) in trades && trades[Key(k.account, t)] == Of(stored, k)[t]
    }

    ghost predicate TradeStored(k: Key)
      requires k in trades
    {
      var f := trades[k];
      f.account == k.account && f.trade == k.id && Has(f) && Of(stored, f.At())[f.trade] == f
    }

    /** The trade-id index holds exactly the stored fills, so no trade id of an account is stored twice. */
    ghost predicate Exact() {
      && (forall k :: OrderIndexed(k))
      && (forall k :: k in trades ==> TradeStored(k))
      && (forall k :: Filed(Of(deferred, k), k))
    }

    lemma PutExact(f: Fill)
      requires Exact() && f.Valid() && Key(f.account, f.trade) !in trades
      ensures !Has(f) && Put(f).Exact()
    {
      assert OrderIndexed(f.At());
      var book := Put(f);
      forall k ensures book.OrderIndexed(k) {
        assert OrderIndexed(k);
      }
      forall k | k in book.trades ensures book.TradeStored(k) {
        assert k in trades ==> TradeStored(k);
      }
      forall k ensures Filed(Of(book.deferred, k), k) {
      }
    }
  }

  function TradeRank(f: Fill): Rank {
    Rank(f.timestamp, f.trade)
  }

  /** `s` lists the fills of `m` once each, by timestamp and then trade id. */
  ghost predicate Chronological(s: seq<Fill>, m: ByTrade) {
    && (forall f :: f in s ==> f.trade in m && m[f.trade] == f)
    && (forall t :: t in m ==> m[t].trade == t && m[t] in s)
    && (forall i, j :: 0 <= i < j < |s| ==> Less(TradeRank(s[i]), TradeRank(s[j])))
  }

  lemma {:induction false} ChronologicalUnique(s: seq<Fill>, t: seq<Fill>, m: ByTrade)
    requires Chronological(s, m) && Chronological(t, m)
    ensures s == t
    decreases |s|
  {
    assert s != [] ==> s[0] in s && s[0] in t;
    assert t != [] ==> t[0] in t && t[0] in s;
    if s != [] {
      assert s[0] == t[0];
      ChronologicalTail(s, m);
      ChronologicalTail(t, m);
      ChronologicalUnique(s[1..], t[1..], m - {s[0].trade});
      assert s == [s[0]] + s[1..] && t == [t[0]] + t[1..];
    }
  }

  lemma ChronologicalTail(s: seq<Fill>, m: ByTrade)
    requires s != [] && Chronological(s, m)
    ensures s[0].trade in m && m[s[0].trade] == s[0] && Chronological(s[1..], m - {s[0].trade})
  {
    assert s[0] in s;
    forall f | f in s[1..] ensures f.trade in m - {s[0].trade} && m[f.trade] == f {
      var i :| 0 < i < |s| && s[i] == f;
    }
    forall t | t in m - {s[0].trade} ensures m[t] in s[1..] {
      var i :| 0 <= i < |s| && s[i] == m[t];
      assert i != 0 ==> s[1..][i - 1] == m[t];
    }
  }

  /** Sorting the ranks of the fills sorts the fills. */
  lemma RankedIsChronological(m: ByTrade, ranks: seq<Rank>, s: seq<Fill>)
    requires forall t :: t in m ==> m[t].trade == t
    requires Enumerates(ranks, set t | t in m :: TradeRank(m[t]))
    requires |s| == |ranks| && forall i :: 0 <= i < |s| ==> ranks[i].id in m && s[i] == m[ranks[i].id]
    ensures Chronological(s, m)
  {
    forall t | t in m ensures m[t] in s {
      assert TradeRank(m[t]) in ranks;
      var i :| 0 <= i < |ranks| && ranks[i] == TradeRank(m[t]);
      assert s[i] == m[t];
    }
    forall i | 0 <= i < |s| ensures TradeRank(s[i]) == ranks[i] {
      assert ranks[i] in ranks;
    }
  }

  ghost function Listing(m: ByTrade): (s: seq<Fill>)
    requires forall t :: t in m ==> m[t].trade == t
    ensures Chronological(s, m)
  {
    var ranks := Sorted(set t | t in m :: TradeRank(m[t]));
    assert forall i :: 0 <= i < |ranks| ==> ranks[i] in ranks;
    var s := seq(|ranks|, i requires 0 <= i < |ranks| => m[ranks[i].id]);
    RankedIsChronological(m, ranks, s);
    s
  }

  class FillCache {
    var book: FillBook

    constructor ()
      ensures book == FillBook(map[], map[], map[]) && book.Exact()
    {
      book := FillBook(map[], map[], map[]);
    }

    method PutFill(f: Fill) returns (stored: bool, ok: bool)
      modifies this
      ensures ok == f.Valid() && stored == (f.Valid() && !old(book).Has(f))
      ensures book == if ok then old(book).Put(f) else old(book)
    {
      if !f.Valid() { return false, false; }
      stored, ok := !book.Has(f), true;
      book := book.Put(f);
    }

    method PutDeferredFill(f: Fill) returns (stored: bool, ok: bool)
      modifies this
      ensures ok == f.Valid() && stored == (f.Valid() && !old(book).Defers(f))
      ensures book == if ok then old(book).Defer(f) else old(book)
    {
      if !f.Valid() { return false, false; }
      stored, ok := !book.Defers(f), true;
      book := book.Defer(f);
    }

    method ClearDeferredFillsForOrder(k: Key)
      modifies this
      ensures book == old(book).ClearDeferred(k)
    {
      book := book.ClearDeferred(k);
    }
  }

  /** The fills of one order in replay order. */
  method SortFills(m: ByTrade) returns (s: seq<Fill>)
    requires forall t :: t in m ==> m[t].trade == t
    ensures Chronological(s, m)
  {
    var ranks := Sort(set t | t in m :: TradeRank(m[t]));
    s := [];
    for i := 0 to |ranks|
      invariant |s| == i
      invariant forall j :: 0 <= j < i ==> ranks[j].id in m && s[j] == m[ranks[j].id]
    {
      assert ranks[i] in ranks;
      s := s + [m[ranks[i].id]];
    }
    RankedIsChronological(m, ranks, s);
  }
}
