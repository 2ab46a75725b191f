/** Repair of cached positions against a venue's snapshot, with a budget of attempts per position. */
module PositionRepair {
  import opened Model
  import opened Sorting
  import Portfolios

  datatype RepairKey = RepairKey(account: Id, instrument: Id, id: Id)

  type Attempts = map<RepairKey, nat>

  function KeyOf(p: Position): RepairKey {
    RepairKey(p.account, p.instrument, p.id)
  }

  function Tried(attempts: Attempts, k: RepairKey): nat {
    if k in attempts then attempts[k] else 0
  }

  /** The venue's snapshot, indexed by position id and by venue position id; later reports win. */
  datatype Snapshot = Snapshot(byId: map<Id, Position>, byVenue: map<Id, Position>) {
    function Match(p: Position): Option<Position> {
      if p.id != NO_ID && p.id in byId then Some(byId[p.id])
      else if p.venue != NO_ID && p.venue in byVenue then Some(byVenue[p.venue])
      else None
    }

    /** No position is recognised by its venue id alone. */
    predicate MatchesById(p: Position) {
      Match(p).Some? ==> p.id in byId
    }
  }

  function Observe(reports: seq<Position>, account: Id, instrument: Id): Snapshot {
    if reports == [] then Snapshot(map[], map[])
    else
      var before, r := Observe(reports[..|reports| - 1], account, instrument), reports[|reports| - 1];
      if r.account != account || r.instrument != instrument then before
      else Snapshot(if r.id != NO_ID then before.byId[r.id := r] else before.byId,
                    if r.venue != NO_ID then before.byVenue[r.venue := r] else before.byVenue)
  }

  predicate PositionsMatch(local: Position, venue: Position) {
    local.side == venue.side && local.quantity == venue.quantity
  }

  /** The position that would repair `p`, if it disagrees with the snapshot. */
  function Diagnose(s: Snapshot, p: Position, now: Time): Option<Position> {
    match s.Match(p)
    case Some(r) => if PositionsMatch(p, r) then None else Some(r)
    case None => if p.IsOpen() then Some(p.(side := Flat, quantity := 0.0, timestamp := now)) else None
  }

  predicate Budgeted(attempts: Attempts, p: Position, max: int) {
    max <= 0 || Tried(attempts, KeyOf(p)) < max
  }

  datatype Kind = MissingFromVenue | SideMismatch | QuantityMismatch

  function KindOf(s: Snapshot, p: Position): Kind {
    match s.Match(p)
    case None => MissingFromVenue
    case Some(r) => if p.side != r.side then SideMismatch else QuantityMismatch
  }

  /** A discrepancy given up on, after so many attempts. */
  datatype Discrepancy = Discrepancy(kind: Kind, key: RepairKey, attempts: nat)

  function GiveUp(attempts: Attempts, s: Snapshot, p: Position): Discrepancy {
    Discrepancy(KindOf(s, p), KeyOf(p), Tried(attempts, KeyOf(p)))
  }

  datatype Repairs = Repairs(attempts: Attempts, generated: seq<Position>, unresolved: seq<Discrepancy>)

  function RepairOne(r: Repairs, s: Snapshot, p: Position, max: int, now: Time): Repairs {
    match Diagnose(s, p, now)
    case None => r.(attempts := r.attempts - {KeyOf(p)})
    case Some(repair) =>
      if Budgeted(r.attempts, p, max)
      then r.(attempts := r.attempts[KeyOf(p) := Tried(r.attempts, KeyOf(p)) + 1], generated := r.generated + [repair])
      else r.(unresolved := r.unresolved + [GiveUp(r.attempts, s, p)])
  }

  function RepairAll(attempts: Attempts, s: Snapshot, ps: seq<Position>, max: int, now: Time): Repairs {
    if ps == [] then Repairs(attempts, [], [])
    else RepairOne(RepairAll(attempts, s, ps[..|ps| - 1], max, now), s, ps[|ps| - 1], max, now)
  }

  // ----- What counts as a discrepancy -----

  datatype Tag = ByPosition | ByVenue

  function IdOf(tag: Tag, r: Position): Id {
    if tag.ByPosition? then r.id else r.venue
  }

  predicate Named(r: Position, account: Id, instrument: Id, tag: Tag, id: Id) {
    r.account == account && r.instrument == instrument && IdOf(tag, r) == id
  }

  /** `r` is the last report of the account and instrument that carries the id. */
  ghost predicate LastWith(reports: seq<Position>, account: Id, instrument: Id, tag: Tag, id: Id, r: Position) {
    exists i :: 0 <= i < |reports| && reports[i] == r && Named(r, account, instrument, tag, id)
                && forall j :: i < j < |reports| ==> !Named(reports[j], account, instrument, tag, id)
  }

  ghost predicate NoneWith(reports: seq<Position>, account: Id, instrument: Id, tag: Tag, id: Id) {
    forall i :: 0 <= i < |reports| ==> !Named(reports[i], account, instrument, tag, id)
  }

  function Indexed(s: Snapshot, tag: Tag): map<Id, Position> {
    if tag.ByPosition? then s.byId else s.byVenue
  }

  lemma LastStays(reports: seq<Position>, account: Id, instrument: Id, tag: Tag, id: Id, r: Position)
    requires reports != [] && LastWith(reports[..|reports| - 1], account, instrument, tag, id, r)
    requires !Named(reports[|reports| - 1], account, instrument, tag, id)
    ensures LastWith(reports, account, instrument, tag, id, r)
  {
    var before := reports[..|reports| - 1];
    var i :| 0 <= i < |before| && before[i] == r
             && forall j :: i < j < |before| ==> !Named(before[j], account, instrument, tag, id);
    assert reports[i] == r && forall j :: i < j < |before| ==> reports[j] == before[j];
  }

  lemma {:induction false} ObserveLast(reports: seq<Position>, account: Id, instrument: Id, tag: Tag, id: Id)
    requires id != NO_ID
    ensures var index := Indexed(Observe(reports, account, instrument), tag);
            if id in index then LastWith(reports, account, instrument, tag, id, index[id])
            else NoneWith(reports, account, instrument, tag, id)
  {
    if reports != [] {
      var n := |reports| - 1;
      var index := Indexed(Observe(reports[..n], account, instrument), tag);
      ObserveLast(reports[..n], account, instrument, tag, id);
      if !Named(reports[n], account, instrument, tag, id) && id in index {
        LastStays(reports, account, instrument, tag, id, index[id]);
      }
    }
  }

  /** The report a position is held against: the last one with its id or, failing that, with its venue id. */
  ghost predicate HeldAgainst(reports: seq<Position>, p: Position, r: Position) {
    || (p.id != NO_ID && LastWith(reports, p.account, p.instrument, ByPosition, p.id, r))
    || (&& (p.id == NO_ID || NoneWith(reports, p.account, p.instrument, ByPosition, p.id))
        && p.venue != NO_ID && LastWith(reports, p.account, p.instrument, ByVenue, p.venue, r))
  }

  lemma MatchIs(reports: seq<Position>, p: Position, r: Position)
    ensures Observe(reports, p.account, p.instrument).Match(p) == Some(r) <==> HeldAgainst(reports, p, r)
  {
    if p.id != NO_ID { ObserveLast(reports, p.account, p.instrument, ByPosition, p.id); }
    if p.venue != NO_ID { ObserveLast(reports, p.account, p.instrument, ByVenue, p.venue); }
  }

  /** A position is in order exactly if the report it is held against shows its side and size or, with no such report,
      if it is not open. A Long against a Short of the same size is a mismatch of sides. */
  lemma DiscrepancyIff(reports: seq<Position>, p: Position, now: Time)
    ensures var s := Observe(reports, p.account, p.instrument);
            && (forall r :: HeldAgainst(reports, p, r) ==>
                  && (Diagnose(s, p, now).None? <==> p.side == r.side && p.quantity == r.quantity)
                  && (Diagnose(s, p, now).Some? ==> Diagnose(s, p, now).value == r)
                  && (p.side != r.side ==> KindOf(s, p) == SideMismatch)
                  && (p.side == r.side ==> KindOf(s, p) == QuantityMismatch))
            && ((forall r :: !HeldAgainst(reports, p, r)) ==>
                  && (Diagnose(s, p, now).None? <==> p.side.Flat? || p.quantity == 0.0)
                  && (Diagnose(s, p, now).Some? ==>
                        Diagnose(s, p, now).value == p.(side := Flat, quantity := 0.0, timestamp := now))
                  && KindOf(s, p) == MissingFromVenue)
  {
    var s := Observe(reports, p.account, p.instrument);
    forall r ensures s.Match(p) == Some(r) <==> HeldAgainst(reports, p, r) { MatchIs(reports, p, r); }
    if s.Match(p).Some? { assert HeldAgainst(reports, p, s.Match(p).value); }
  }

  // ----- Where each position lands -----

  ghost function Repaired(attempts: Attempts, s: Snapshot, ps: seq<Position>, max: int, now: Time): seq<Position> {
    if ps == [] then []
    else
      var before, p := Repaired(attempts, s, ps[..|ps| - 1], max, now), ps[|ps| - 1];
      if Diagnose(s, p, now).Some? && Budgeted(attempts, p, max) then before + [Diagnose(s, p, now).value] else before
  }

  ghost function GivenUp(attempts: Attempts, s: Snapshot, ps: seq<Position>, max: int, now: Time): seq<Discrepancy> {
    if ps == [] then []
    else
      var before, p := GivenUp(attempts, s, ps[..|ps| - 1], max, now), ps[|ps| - 1];
      if Diagnose(s, p, now).Some? && !Budgeted(attempts, p, max) then before + [GiveUp(attempts, s, p)] else before
  }

  ghost predicate DistinctKeys(ps: seq<Position>) {
    forall i, j :: 0 <= i < j < |ps| ==> KeyOf(ps[i]) != KeyOf(ps[j])
  }

  /** What a call does to the counter of one position. */
  function Count(attempts: Attempts, s: Snapshot, p: Position, max: int, now: Time): nat {
    if Diagnose(s, p, now).None? then 0
    else Tried(attempts, KeyOf(p)) + if Budgeted(attempts, p, max) then 1 else 0
  }

  lemma {:induction false} CountersElsewhere(attempts: Attempts, s: Snapshot, ps: seq<Position>, max: int, now: Time,
      k: RepairKey)
    requires forall i :: 0 <= i < |ps| ==> KeyOf(ps[i]) != k
    ensures Tried(RepairAll(attempts, s, ps, max, now).attempts, k) == Tried(attempts, k)
  {
    if ps != [] { CountersElsewhere(attempts, s, ps[..|ps| - 1], max, now, k); }
  }

  /** Every discrepant position lands in exactly one of the two lists, by the budget it had when the call began. */
  lemma {:induction false} RepairLands(attempts: Attempts, s: Snapshot, ps: seq<Position>, max: int, now: Time)
    requires DistinctKeys(ps)
    ensures RepairAll(attempts, s, ps, max, now).generated == Repaired(attempts, s, ps, max, now)
    ensures RepairAll(attempts, s, ps, max, now).unresolved == GivenUp(attempts, s, ps, max, now)
  {
    if ps != [] {
      var before, p := ps[..|ps| - 1], ps[|ps| - 1];
      RepairLands(attempts, s, before, max, now);
      CountersElsewhere(attempts, s, before, max, now, KeyOf(p));
    }
  }

  lemma {:induction false} RepairCounts(attempts: Attempts, s: Snapshot, ps: seq<Position>, max: int, now: Time, i: nat)
    requires DistinctKeys(ps) && i < |ps|
    ensures Tried(RepairAll(attempts, s, ps, max, now).attempts, KeyOf(ps[i])) == Count(attempts, s, ps[i], max, now)
  {
    var before, p := ps[..|ps| - 1], ps[|ps| - 1];
    if i == |before| {
      CountersElsewhere(attempts, s, before, max, now, KeyOf(p));
    } else {
      RepairCounts(attempts, s, before, max, now, i);
      assert KeyOf(ps[i]) != KeyOf(p);
    }
  }

  /** The list sizes account for every discrepant position. */
  lemma {:induction false} RepairConserves(attempts: Attempts, s: Snapshot, ps: seq<Position>, max: int, now: Time)
    requires DistinctKeys(ps)
    ensures var r := RepairAll(attempts, s, ps, max, now);
            |r.generated| + |r.unresolved| == Discrepancies(s, ps, now)
  {
    if ps != [] { RepairConserves(attempts, s, ps[..|ps| - 1], max, now); }
  }

  ghost function Discrepancies(s: Snapshot, ps: seq<Position>, now: Time): nat {
    if ps == [] then 0
    else Discrepancies(s, ps[..|ps| - 1], now) + if Diagnose(s, ps[|ps| - 1], now).Some? then 1 else 0
  }

  // ----- The budget over a whole run of calls -----

  /** A call: the cached positions it looks at and the snapshot it is given. */
  datatype Call = Call(positions: seq<Position>, snapshot: Snapshot, now: Time)

  ghost function After(attempts: Attempts, calls: seq<Call>, max: int): Attempts {
    if calls == [] then attempts
    else
      var c := calls[|calls| - 1];
      RepairAll(After(attempts, calls[..|calls| - 1], max), c.snapshot, c.positions, max, c.now).attempts
  }

  datatype Fate = Untouched | Cleared | Generated | Unresolved

  /** What the last call of a run did to a position. */
  ghost function LastFate(calls: seq<Call>, max: int, k: RepairKey): Fate
    requires calls != []
  {
    var c, before := calls[|calls| - 1], After(map[], calls[..|calls| - 1], max);
    if !(exists i :: 0 <= i < |c.positions| && KeyOf(c.positions[i]) == k) then Untouched
    else
      var i :| 0 <= i < |c.positions| && KeyOf(c.positions[i]) == k;
      if Diagnose(c.snapshot, c.positions[i], c.now).None? then Cleared
      else if Budgeted(before, c.positions[i], max) then Generated
      else Unresolved
  }

  /** Repairs generated for a position since its counter was last cleared. */
  ghost function GeneratedSinceClear(calls: seq<Call>, max: int, k: RepairKey): nat {
    if calls == [] then 0
    else
      var before := GeneratedSinceClear(calls[..|calls| - 1], max, k);
      match LastFate(calls, max, k)
      case Cleared => 0
      case Generated => before + 1
      case _ => before
  }

  ghost predicate AllDistinct(calls: seq<Call>) {
    forall i :: 0 <= i < |calls| ==> DistinctKeys(calls[i].positions)
  }

  /** At most `max` repairs are generated for a position between two clears, over any run of calls. */
  lemma {:induction false} BudgetHolds(calls: seq<Call>, max: int, k: RepairKey)
    requires AllDistinct(calls) && 0 < max
    ensures Tried(After(map[], calls, max), k) == GeneratedSinceClear(calls, max, k) <= max
  {
    if calls != [] {
      var before, c := calls[..|calls| - 1], calls[|calls| - 1];
      BudgetHolds(before, max, k);
      var attempts := After(map[], before, max);
      if i :| 0 <= i < |c.positions| && KeyOf(c.positions[i]) == k {
        RepairCounts(attempts, c.snapshot, c.positions, max, c.now, i);
        var j :| 0 <= j < |c.positions| && KeyOf(c.positions[j]) == k && LastFate(calls, max, k) ==
          (if Diagnose(c.snapshot, c.positions[j], c.now).None? then Cleared
           else if Budgeted(attempts, c.positions[j], max) then Generated else Unresolved);
        assert i == j;
      } else {
        CountersElsewhere(attempts, c.snapshot, c.positions, max, c.now, k);
      }
    }
  }

  // ----- Applying the repairs and looking again -----

  ghost predicate ReportAt(s: Snapshot, id: Id, account: Id, instrument: Id)
    requires id in s.byId
  {
    s.byId[id].id == id && s.byId[id].account == account && s.byId[id].instrument == instrument
  }

  lemma {:induction false} ObserveFiled(reports: seq<Position>, account: Id, instrument: Id, id: Id)
    requires id in Observe(reports, account, instrument).byId
    ensures ReportAt(Observe(reports, account, instrument), id, account, instrument)
  {
    var before, r := Observe(reports[..|reports| - 1], account, instrument), reports[|reports| - 1];
    if id in before.byId { ObserveFiled(reports[..|reports| - 1], account, instrument, id); }
  }

  /** A repair stands where the repaired position stood, and the snapshot has nothing to say against it. */
  lemma RepairHeals(reports: seq<Position>, account: Id, instrument: Id, p: Position, now: Time, later: Time)
    requires p.account == account && p.instrument == instrument && p.id != NO_ID
    requires Observe(reports, account, instrument).MatchesById(p)
                 && Diagnose(Observe(reports, account, instrument), p, now).Some?
    ensures var s := Observe(reports, account, instrument); var q := Diagnose(s, p, now).value;
            KeyOf(q) == KeyOf(p) && Diagnose(s, q, later).None?
  {
    if p.id in Observe(reports, account, instrument).byId { ObserveFiled(reports, account, instrument, p.id); }
  }

  function PutAll(positions: map<Key, Position>, ps: seq<Position>): map<Key, Position> {
    if ps == [] then positions else PutAll(positions, ps[..|ps| - 1])[ps[|ps| - 1].At() := ps[|ps| - 1]]
  }

  /** `ps` lists the positions of an account in an instrument, each once. */
  ghost predicate Lists(ps: seq<Position>, positions: map<Key, Position>, account: Id, instrument: Id) {
    && DistinctKeys(ps)
    && forall p :: p in ps <==>
      p.At() in positions && positions[p.At()] == p && p.account == account && p.instrument == instrument
  }

  /** `q` is the repair generated for the position at `i`. */
  predicate Mends(attempts: Attempts, s: Snapshot, ps: seq<Position>, max: int, now: Time, i: int, q: Position) {
    0 <= i < |ps| && Diagnose(s, ps[i], now) == Some(q) && Budgeted(attempts, ps[i], max)
  }

  /** A position that a call repairs, and whose repair lands beside it. */
  predicate Sidelined(attempts: Attempts, s: Snapshot, p: Position, max: int, now: Time) {
    Diagnose(s, p, now).Some? && Budgeted(attempts, p, max) && !s.MatchesById(p)
  }

  /** After the repairs each listed position is repaired, or was healthy, or had run out of budget. */
  lemma {:induction false} PutRepairs(positions: map<Key, Position>, attempts: Attempts, reports: seq<Position>,
      account: Id, instrument: Id, ps: seq<Position>, max: int, now: Time, k: Key)
    requires forall i :: 0 <= i < |ps| ==>
                 ps[i].account == account && ps[i].instrument == instrument && ps[i].id != NO_ID
    requires forall i :: 0 <= i < |ps| ==> !Sidelined(attempts, Observe(reports, account, instrument), ps[i], max, now)
    ensures var s := Observe(reports, account, instrument); var after :=
                PutAll(positions, Repaired(attempts, s, ps, max, now));
            && (k in positions ==> k in after)
            && (k in after ==>
                  if exists i ::
                    0 <= i < |ps| && ps[i].At() == k && Diagnose(s, ps[i], now).Some? && Budgeted(attempts, ps[i], max)
                  then exists i :: Mends(attempts, s, ps, max, now, i, after[k]) && ps[i].At() == k
                  else k in positions && after[k] == positions[k])
  {
    if ps != [] {
      var before, p := ps[..|ps| - 1], ps[|ps| - 1];
      PutRepairs(positions, attempts, reports, account, instrument, before, max, now, k);
      var s := Observe(reports, account, instrument);
      if Diagnose(s, p, now).Some? && Budgeted(attempts, p, max) {
        RepairHeals(reports, account, instrument, p, now, now);
        assert Mends(attempts, s, ps, max, now, |before|, Diagnose(s, p, now).value);
      }
      assert forall i :: 0 <= i < |before| ==> before[i] == ps[i];
    }
  }

  lemma {:induction false} NothingToRepair(attempts: Attempts, s: Snapshot, ps: seq<Position>, max: int, now: Time)
    requires forall i :: 0 <= i < |ps| ==> Diagnose(s, ps[i], now).None? || !Budgeted(attempts, ps[i], max)
    ensures Repaired(attempts, s, ps, max, now) == []
  {
    if ps != [] { NothingToRepair(attempts, s, ps[..|ps| - 1], max, now); }
  }

  /** Once the repairs are in the cache, a position is healthy unless the budget had already run out on it. */
  lemma RepairedOrGivenUp(positions: map<Key, Position>, attempts: Attempts, reports: seq<Position>, account: Id,
      instrument: Id, ps: seq<Position>, max: int, now: Time, later: Time, p: Position)
    requires Lists(ps, positions, account, instrument) && (forall q :: q in ps ==> q.id != NO_ID)
    requires forall q :: q in ps ==> !Sidelined(attempts, Observe(reports, account, instrument), q, max, now)
    requires var s := Observe(reports, account, instrument); var after :=
                 PutAll(positions, Repaired(attempts, s, ps, max, now));
             p.At() in after && after[p.At()] == p && p.account == account && p.instrument == instrument
    ensures var s := Observe(reports, account, instrument);
            Diagnose(s, p, later).None? || (p in ps && Diagnose(s, p, now).Some? && !Budgeted(attempts, p, max))
  {
    var s := Observe(reports, account, instrument);
    forall i | 0 <= i < |ps|
      ensures ps[i].account == account && ps[i].instrument == instrument && ps[i].id != NO_ID
      ensures !Sidelined(attempts, s, ps[i], max, now)
    {
      assert ps[i] in ps;
    }
    PutRepairs(positions, attempts, reports, account, instrument, ps, max, now, p.At());
    if i :| Mends(attempts, s, ps, max, now, i, p) && ps[i].At() == p.At() {
      RepairHeals(reports, account, instrument, ps[i], now, later);
    } else {
      assert p in ps;
      var i :| 0 <= i < |ps| && ps[i] == p;
    }
  }

  /** Unless a repair lands beside its position, applying the repairs and repairing again on the same snapshot generates
      nothing. */
  lemma RepairSettles(positions: map<Key, Position>, attempts: Attempts, reports: seq<Position>, account: Id,
      instrument: Id, ps: seq<Position>, again: seq<Position>, max: int, now: Time, later: Time)
    requires Lists(ps, positions, account, instrument) && (forall q :: q in ps ==> q.id != NO_ID)
    requires forall q :: q in ps ==> !Sidelined(attempts, Observe(reports, account, instrument), q, max, now)
    requires var s := Observe(reports, account, instrument);
             Lists(again, PutAll(positions, RepairAll(attempts, s, ps, max, now).generated), account, instrument)
    ensures var s := Observe(reports, account, instrument);
            var first := RepairAll(attempts, s, ps, max, now); var second :=
              RepairAll(first.attempts, s, again, max, later);
            && second.generated == []
            && (first.unresolved == [] ==> second.unresolved == [] && forall i :: 0 <= i < |again| ==>
              Tried(second.attempts, KeyOf(again[i])) == 0)
  {
    var s := Observe(reports, account, instrument);
    var first := RepairAll(attempts, s, ps, max, now);
    RepairLands(attempts, s, ps, max, now);
    RepairLands(first.attempts, s, again, max, later);
    forall i | 0 <= i < |again|
      ensures Diagnose(s, again[i], later).None? || !Budgeted(first.attempts, again[i], max)
      ensures first.unresolved == [] ==> Diagnose(s, again[i], later).None?
    {
      var p := again[i];
      assert p in again;
      RepairedOrGivenUp(positions, attempts, reports, account, instrument, ps, max, now, later, p);
      if Diagnose(s, p, later).Some? {
        var j :| 0 <= j < |ps| && ps[j] == p;
        RepairCounts(attempts, s, ps, max, now, j);
        GivenUpHolds(attempts, s, ps, max, now, j);
      }
      RepairCounts(first.attempts, s, again, max, later, i);
    }
    NothingToRepair(first.attempts, s, again, max, later);
    if first.unresolved == [] {
      forall i | 0 <= i < |again| ensures Tried(RepairAll(first.attempts, s, again, max, later).attempts,
        KeyOf(again[i])) == 0 {
        RepairCounts(first.attempts, s, again, max, later, i);
      }
      NoneGivenUp(first.attempts, s, again, max, later);
    }
  }

  lemma {:induction false} GivenUpHolds(attempts: Attempts, s: Snapshot, ps: seq<Position>, max: int, now: Time, j: nat)
    requires j < |ps| && Diagnose(s, ps[j], now).Some? && !Budgeted(attempts, ps[j], max)
    ensures GivenUp(attempts, s, ps, max, now) != []
  {
    if j < |ps| - 1 { GivenUpHolds(attempts, s, ps[..|ps| - 1], max, now, j); }
  }

  lemma {:induction false} NoneGivenUp(attempts: Attempts, s: Snapshot, ps: seq<Position>, max: int, now: Time)
    requires forall i :: 0 <= i < |ps| ==> Diagnose(s, ps[i], now).None?
    ensures GivenUp(attempts, s, ps, max, now) == []
  {
    if ps != [] { NoneGivenUp(attempts, s, ps[..|ps| - 1], max, now); }
  }

  lemma {:induction false} ObservedById(reports: seq<Position>, account: Id, instrument: Id, venue: Id)
    requires venue in Observe(reports, account, instrument).byVenue
    ensures var s := Observe(reports, account, instrument); var r := s.byVenue[venue];
            r.account == account && r.instrument == instrument && (r.id != NO_ID ==> r.id in s.byId)
  {
    var before, r := Observe(reports[..|reports| - 1], account, instrument), reports[|reports| - 1];
    if venue in before.byVenue { ObservedById(reports[..|reports| - 1], account, instrument, venue); }
  }

  /** A repair is filed where the repaired position stands exactly when the position was not recognised by its venue id
      alone. */
  lemma RepairInPlaceIff(reports: seq<Position>, account: Id, instrument: Id, p: Position, now: Time)
    requires p.account == account && p.instrument == instrument && p.id != NO_ID
    requires Diagnose(Observe(reports, account, instrument), p, now).Some?
    ensures var s := Observe(reports, account, instrument);
            Diagnose(s, p, now).value.At() == p.At() <==> s.MatchesById(p)
  {
    var s := Observe(reports, account, instrument);
    if p.id in s.byId {
      ObserveFiled(reports, account, instrument, p.id);
    } else if s.Match(p).Some? {
      ObservedById(reports, account, instrument, p.venue);
    }
  }

  lemma {:induction false} RepairsAvoid(attempts: Attempts, s: Snapshot, ps: seq<Position>, max: int, now: Time, k: Key)
    requires forall i :: 0 <= i < |ps| && Diagnose(s, ps[i], now).Some? ==> Diagnose(s, ps[i], now).value.At() != k
    ensures forall q :: q in Repaired(attempts, s, ps, max, now) ==> q.At() != k
  {
    if ps != [] { RepairsAvoid(attempts, s, ps[..|ps| - 1], max, now, k); }
  }

  lemma {:induction false} PutElsewhere(positions: map<Key, Position>, qs: seq<Position>, k: Key)
    requires k in positions && forall q :: q in qs ==> q.At() != k
    ensures k in PutAll(positions, qs) && PutAll(positions, qs)[k] == positions[k]
  {
    if qs != [] {
      assert qs[|qs| - 1] in qs;
      PutElsewhere(positions, qs[..|qs| - 1], k);
    }
  }

  lemma {:induction false} RepairHolds(attempts: Attempts, s: Snapshot, ps: seq<Position>, max: int, now: Time, j: nat)
    requires j < |ps| && Diagnose(s, ps[j], now).Some? && Budgeted(attempts, ps[j], max)
    ensures Repaired(attempts, s, ps, max, now) != []
  {
    if j < |ps| - 1 { RepairHolds(attempts, s, ps[..|ps| - 1], max, now, j); }
  }

  /** No repair lands on a position that is recognised by its venue id alone. */
  lemma SidelinedStays(positions: map<Key, Position>, attempts: Attempts, reports: seq<Position>, account: Id,
      instrument: Id, ps: seq<Position>, max: int, now: Time, p: Position)
    requires Lists(ps, positions, account, instrument) && (forall q :: q in ps ==> q.id != NO_ID)
    requires p in ps && Sidelined(attempts, Observe(reports, account, instrument), p, max, now)
    ensures var after := PutAll(positions, Repaired(attempts, Observe(reports, account, instrument), ps, max, now));
            p.At() in after && after[p.At()] == p
  {
    var s := Observe(reports, account, instrument);
    forall i | 0 <= i < |ps| && Diagnose(s, ps[i], now).Some? ensures Diagnose(s, ps[i], now).value.At() != p.At() {
      assert ps[i] in ps;
      RepairInPlaceIff(reports, account, instrument, ps[i], now);
      if !s.MatchesById(ps[i]) { ObservedById(reports, account, instrument, ps[i].venue); }
    }
    RepairsAvoid(attempts, s, ps, max, now, p.At());
    PutElsewhere(positions, Repaired(attempts, s, ps, max, now), p.At());
  }

  /** With budget left for it, such a position is repaired again by the next call. */
  lemma SidelinedAgain(positions: map<Key, Position>, attempts: Attempts, reports: seq<Position>, account: Id,
      instrument: Id, ps: seq<Position>, again: seq<Position>, max: int, now: Time, later: Time, p: Position)
    requires Lists(ps, positions, account, instrument) && (forall q :: q in ps ==> q.id != NO_ID)
    requires var s := Observe(reports, account, instrument);
             Lists(again, PutAll(positions, RepairAll(attempts, s, ps, max, now).generated), account, instrument)
    requires p in ps && Sidelined(attempts, Observe(reports, account, instrument), p, max, now)
    requires max <= 0 || Tried(attempts, KeyOf(p)) + 1 < max
    ensures var s := Observe(reports, account, instrument); var first := RepairAll(attempts, s, ps, max, now);
            && p in again && Sidelined(first.attempts, s, p, max, later)
            && RepairAll(first.attempts, s, again, max, later).generated != []
  {
    var s := Observe(reports, account, instrument);
    var first := RepairAll(attempts, s, ps, max, now);
    RepairLands(attempts, s, ps, max, now);
    SidelinedStays(positions, attempts, reports, account, instrument, ps, max, now, p);
    var i :| 0 <= i < |ps| && ps[i] == p;
    RepairCounts(attempts, s, ps, max, now, i);
    RepairLands(first.attempts, s, again, max, later);
    var j :| 0 <= j < |again| && again[j] == p;
    RepairHolds(first.attempts, s, again, max, later, j);
  }

  /** With room for a further attempt, a second call generates nothing exactly when no repair of the first landed beside
      its position. */
  lemma RerunIff(positions: map<Key, Position>, attempts: Attempts, reports: seq<Position>, account: Id,
      instrument: Id, ps: seq<Position>, again: seq<Position>, max: int, now: Time, later: Time)
    requires Lists(ps, positions, account, instrument) && (forall q :: q in ps ==> q.id != NO_ID)
    requires var s := Observe(reports, account, instrument);
             Lists(again, PutAll(positions, RepairAll(attempts, s, ps, max, now).generated), account, instrument)
    requires max <= 0 || forall q :: q in ps ==> Tried(attempts, KeyOf(q)) + 1 < max
    ensures var s := Observe(reports, account, instrument); var first := RepairAll(attempts, s, ps, max, now);
            RepairAll(first.attempts, s, again, max, later).generated == [] <==>
              forall q :: q in ps ==> !Sidelined(attempts, s, q, max, now)
  {
    var s := Observe(reports, account, instrument);
    if p :| p in ps && Sidelined(attempts, s, p, max, now) {
      SidelinedAgain(positions, attempts, reports, account, instrument, ps, again, max, now, later, p);
    } else {
      RepairSettles(positions, attempts, reports, account, instrument, ps, again, max, now, later);
    }
  }

  lemma ObserveOne(r: Position)
    requires r.id != NO_ID && r.venue != NO_ID
    ensures Observe([r], r.account, r.instrument) == Snapshot(map[r.id := r], map[r.venue := r])
  {
    assert [r][..0] == [];
    assert Observe([], r.account, r.instrument) == Snapshot(map[], map[]);
  }

  /** A position recognised by its venue id alone: the repair lands beside it, and the next call repairs it again. */
  lemma VenueMatchRepeats(p: Position, r: Position, s: Snapshot, now: Time, later: Time)
    requires p == Position(1, 1, 1, 7, Long, 1.0, 1.0, 0) && r == Position(1, 1, 2, 7, Long, 2.0, 1.0, 0)
                 && s == Observe([r], 1, 1)
    ensures RepairAll(map[], s, [p], 0, now).generated == [r]
    ensures Lists([p, r], PutAll(map[p.At() := p], [r]), 1, 1)
    ensures RepairAll(RepairAll(map[], s, [p], 0, now).attempts, s, [p, r], 0, later).generated == [r]
  {
    ObserveOne(r);
    assert Diagnose(s, p, now) == Diagnose(s, p, later) == Some(r) && Diagnose(s, r, later) == None;
    RepairOfOne(map[], s, p, r, now);
    var attempts := RepairAll(map[], s, [p], 0, now).attempts;
    RepairOfOne(attempts, s, p, r, later);
    assert [p, r][..1] == [p];
    assert [r][..0] == [] && PutAll(map[p.At() := p], [r]) == map[p.At() := p, r.At() := r];
    assert forall q :: q in [p, r] <==> q == p || q == r;
  }

  lemma RepairOfOne(attempts: Attempts, s: Snapshot, p: Position, r: Position, now: Time)
    requires Diagnose(s, p, now) == Some(r)
    ensures RepairAll(attempts, s, [p], 0, now).generated == [r]
  {
    assert [p][..0] == [];
    assert RepairAll(attempts, s, [], 0, now) == Repairs(attempts, [], []);
  }

  /** The reconciler's repair counters. */
  class Repairer {
    var attempts: Attempts

    constructor ()
      ensures attempts == map[]
    {
      attempts := map[];
    }

    method Snap(reports: seq<Position>, account: Id, instrument: Id) returns (s: Snapshot)
      ensures s == Observe(reports, account, instrument)
    {
      s := Snapshot(map[], map[]);
      for i := 0 to |reports|
        invariant s == Observe(reports[..i], account, instrument)
      {
        var r := reports[i];
        assert reports[..i + 1][..i] == reports[..i];
        if r.account != account || r.instrument != instrument { continue; }
        if r.id != NO_ID { s := s.(byId := s.byId[r.id := r]); }
        if r.venue != NO_ID { s := s.(byVenue := s.byVenue[r.venue := r]); }
      }
      assert reports[..|reports|] == reports;
    }

    /** `listed` is what the cache holds of the account and instrument; an account or instrument that is missing is an
        error. */
    method RepairPositionReports(positions: map<Key, Position>, account: Id, instrument: Id, reports: seq<Position>,
        max: int, now: Time)
      returns (r: Repairs, ok: bool, ghost listed: seq<Position>)
      requires forall k :: k in positions ==> positions[k].At() == k
      modifies this
      ensures ok == (account != NO_ID && instrument != NO_ID)
      ensures !ok ==> attempts == old(attempts)
      ensures ok ==> Lists(listed, positions, account, instrument) && attempts == r.attempts
                     && r == RepairAll(old(attempts), Observe(reports, account, instrument), listed, max, now)
    {
      listed, r, ok := [], Repairs(attempts, [], []), account != NO_ID && instrument != NO_ID;
      if !ok { return; }
      var s := Snap(reports, account, instrument);
      var ps := Portfolios.PositionsForInstrument(positions, instrument);
      for i := 0 to |ps|
        invariant forall p :: p in listed <==> p in ps[..i] && p.account == account
        invariant DistinctKeys(listed)
        invariant r == RepairAll(old(attempts), s, listed, max, now)
      {
        var p := ps[i];
        assert ps[..i + 1] == ps[..i] + [p];
        if p.account != account { continue; }
        forall j | 0 <= j < |listed| ensures KeyOf(listed[j]) != KeyOf(p) {
          assert listed[j] in listed;
          var x :| 0 <= x < i && ps[x] == listed[j];
          assert Less(Rank(ps[x].account, ps[x].id), Rank(p.account, p.id));
        }
        assert (listed + [p])[..|listed|] == listed;
        listed := listed + [p];
        r := RepairOne(r, s, p, max, now);
      }
      assert ps[..|ps|] == ps;
      attempts := r.attempts;
    }
  }
}
