/** The backtest's timer loop: timers fire by time and then name while a handler sets and cancels timers. */
module Timers {
  import opened Model

  datatype Timer = Timer(interval: int, next: Time)

  type TimerSet = map<Id, Timer>

  datatype Event = Event(name: Id, time: Time)

  /** What a handler may do while a timer fires. */
  datatype Command = SetTimer(name: Id, interval: int) | CancelTimer(name: Id)

  /** A handler sees everything fired so far and answers with commands, or with an error. */
  datatype Reply = Reply(commands: seq<Command>, ok: bool)

  type Handler = seq<Event> -> Reply

  ghost predicate Sound(ts: TimerSet) {
    forall n :: n in ts ==> n != NO_ID && 0 < ts[n].interval
  }

  predicate Earlier(a: Event, b: Event) {
    a.time < b.time || (a.time == b.time && a.name < b.name)
  }

  ghost predicate Increasing(events: seq<Event>) {
    forall i, j :: 0 <= i < j < |events| ==> Earlier(events[i], events[j])
  }

  function Obey(ts: TimerSet, now: Time, c: Command): TimerSet {
    match c
    case SetTimer(n, interval) => if n == NO_ID || interval <= 0 then ts else ts[n := Timer(interval, now + interval)]
    case CancelTimer(n) => ts - {n}
  }

  function ObeyAll(ts: TimerSet, now: Time, cs: seq<Command>): TimerSet {
    if cs == [] then ts else Obey(ObeyAll(ts, now, cs[..|cs| - 1]), now, cs[|cs| - 1])
  }

  /** A fired timer that the handler left alone is due again one interval later. */
  function Advance(ts: TimerSet, fired: Event): TimerSet {
    if fired.name in ts && ts[fired.name].next == fired.time
    then ts[fired.name := ts[fired.name].(next := ts[fired.name].next + ts[fired.name].interval)]
    else ts
  }

  /** The timer that fires next: the first of those due, by time and then name. */
  ghost predicate IsNext(ts: TimerSet, until: Time, e: Event) {
    && e.name in ts && ts[e.name].next == e.time <= until
    && forall n :: n in ts && n != e.name && ts[n].next <= until ==> Earlier(e, Event(n, ts[n].next))
  }

  ghost predicate NothingDue(ts: TimerSet, until: Time) {
    forall n :: n in ts ==> until < ts[n].next
  }

  method NextDueTimer(ts: TimerSet, until: Time) returns (found: Option<Event>)
    requires Sound(ts)
    ensures found.None? ==> NothingDue(ts, until)
    ensures found.Some? ==> IsNext(ts, until, found.value)
  {
    found := None;
    var rest := ts.Keys;
    while rest != {}
      invariant rest <= ts.Keys
      invariant found.None? ==> forall n :: n in ts && n !in rest ==> until < ts[n].next
      invariant found.Some? ==> var e := found.value;
                  && e.name in ts && e.name !in rest && ts[e.name].next == e.time <= until
                  && forall n :: n in ts && n !in rest && n != e.name && ts[n].next <= until ==>
                    Earlier(e, Event(n, ts[n].next))
      decreases rest
    {
      var n :| n in rest;
      rest := rest - {n};
      if ts[n].next <= until && (found.None? || Earlier(Event(n, ts[n].next), found.value)) {
        found := Some(Event(n, ts[n].next));
      }
    }
  }

  // ----- One firing -----

  /** Every timer is either one of the old ones, unchanged, or due after `now`. */
  ghost predicate Later(ts: TimerSet, now: Time, old_: TimerSet) {
    forall n :: n in ts ==> now < ts[n].next || (n in old_ && old_[n] == ts[n])
  }

  lemma {:induction false} ObeyLater(ts: TimerSet, now: Time, cs: seq<Command>)
    requires Sound(ts)
    ensures Sound(ObeyAll(ts, now, cs)) && Later(ObeyAll(ts, now, cs), now, ts)
  {
    if cs != [] { ObeyLater(ts, now, cs[..|cs| - 1]); }
  }

  /** The last command that says something about a timer; one that sets it to no positive interval says nothing. */
  function LastWord(cs: seq<Command>, n: Id): Option<Command> {
    if cs == [] then None
    else
      var c := cs[|cs| - 1];
      if c.name == n && (c.CancelTimer? || 0 < c.interval) then Some(c) else LastWord(cs[..|cs| - 1], n)
  }

  /** A timer set is due one interval from now, a cancelled one is gone, and any other is as it was. */
  lemma {:induction false} ObeysLastWord(ts: TimerSet, now: Time, cs: seq<Command>, n: Id)
    requires n != NO_ID
    ensures var after, word := ObeyAll(ts, now, cs), LastWord(cs, n);
            && (word.None? ==> (n in after <==> n in ts) && (n in ts ==> after[n] == ts[n]))
            && (word.Some? && word.value.CancelTimer? ==> n !in after)
            && (word.Some? && word.value.SetTimer? ==>
                  n in after && after[n].interval == word.value.interval && after[n].next - now == word.value.interval)
  {
    if cs != [] { ObeysLastWord(ts, now, cs[..|cs| - 1], n); }
  }

  function Fire(ts: TimerSet, e: Event, cs: seq<Command>): TimerSet {
    Advance(ObeyAll(ts, e.time, cs), e)
  }

  /** After a firing, whatever is due comes strictly later in the firing order. */
  lemma FireMovesOn(ts: TimerSet, until: Time, e: Event, cs: seq<Command>)
    requires Sound(ts) && IsNext(ts, until, e)
    ensures Sound(Fire(ts, e, cs))
    ensures forall n :: n in Fire(ts, e, cs) && Fire(ts, e, cs)[n].next <= until ==>
                Earlier(e, Event(n, Fire(ts, e, cs)[n].next))
    ensures forall n :: n in Fire(ts, e, cs) && Fire(ts, e, cs)[n].next == e.time ==>
                n in ts && ts[n].next == e.time && n != e.name
  {
    ObeyLater(ts, e.time, cs);
  }

  /** The timers due exactly at a time. */
  ghost function DueAt(ts: TimerSet, t: Time): set<Id> {
    set n | n in ts && ts[n].next == t
  }

  lemma FireShrinks(ts: TimerSet, until: Time, e: Event, cs: seq<Command>)
    requires Sound(ts) && IsNext(ts, until, e)
    ensures DueAt(Fire(ts, e, cs), e.time) < DueAt(ts, e.time)
  {
    FireMovesOn(ts, until, e, cs);
    assert e.name in DueAt(ts, e.time);
  }

  /** The earliest time anything is due, or one past the horizon. */
  ghost predicate Floor(ts: TimerSet, t: Time) {
    forall n :: n in ts ==> t <= ts[n].next
  }

  lemma {:induction false} FloorExists(ts: TimerSet) returns (t: Time)
    ensures Floor(ts, t)
    decreases |ts|
  {
    if ts == map[] {
      t := 0;
    } else {
      var n :| n in ts;
      t := FloorExists(ts - {n});
      assert forall m :: m in ts && m != n ==> m in ts - {n} && t <= (ts - {n})[m].next;
      if ts[n].next < t { t := ts[n].next; }
    }
  }

  // ----- A whole dispatch -----

  /** The timers after the given firings, the handler having answered each of them. */
  function After(ts: TimerSet, events: seq<Event>, handler: Handler): TimerSet {
    if events == [] then ts
    else Fire(After(ts, events[..|events| - 1], handler), events[|events| - 1], handler(events).commands)
  }

  /** The timers when the handler fails at the last firing: it has been answered, but its timer not moved on. */
  function Interrupted(ts: TimerSet, events: seq<Event>, handler: Handler): TimerSet
    requires events != []
  {
    var e := events[|events| - 1];
    ObeyAll(After(ts, events[..|events| - 1], handler), e.time, handler(events).commands)
  }

  /** Each firing was the next one due, and the handler accepted all but possibly the last. */
  ghost predicate Dispatched(ts: TimerSet, events: seq<Event>, until: Time, handler: Handler) {
    events == [] ||
    var before := events[..|events| - 1];
    && Dispatched(ts, before, until, handler) && (before != [] ==> handler(before).ok)
    && IsNext(After(ts, before, handler), until, events[|events| - 1])
  }

  /** Whatever is still due comes after the last firing. */
  ghost predicate MovedOn(ts: TimerSet, until: Time, last: Event) {
    forall n :: n in ts && ts[n].next <= until ==> Earlier(last, Event(n, ts[n].next))
  }

  lemma {:induction false} AfterSound(ts: TimerSet, events: seq<Event>, until: Time, handler: Handler)
    requires Sound(ts) && Dispatched(ts, events, until, handler)
    ensures Sound(After(ts, events, handler))
    ensures events != [] ==> MovedOn(After(ts, events, handler), until, events[|events| - 1])
  {
    if events != [] {
      var before := events[..|events| - 1];
      AfterSound(ts, before, until, handler);
      FireMovesOn(After(ts, before, handler), until, events[|events| - 1], handler(events).commands);
    }
  }

  /** Timers fire in order of time and at the same time in order of their names, each once, whatever the handler does.
      */
  lemma {:induction false} FiringOrder(ts: TimerSet, events: seq<Event>, until: Time, handler: Handler)
    requires Sound(ts) && Dispatched(ts, events, until, handler)
    ensures Increasing(events) && forall i :: 0 <= i < |events| ==> events[i].time <= until
    ensures forall i, j :: 0 <= i < j < |events| ==>
              events[i].time <= events[j].time && (events[i].time == events[j].time ==> events[i].name < events[j].name)
  {
    if events != [] {
      var before, last := events[..|events| - 1], events[|events| - 1];
      FiringOrder(ts, before, until, handler);
      AfterSound(ts, before, until, handler);
      assert before != [] ==> Earlier(before[|before| - 1], last);
    }
  }

  ghost predicate Leaves(cs: seq<Command>, n: Id) {
    forall j :: 0 <= j < |cs| ==> cs[j].name != n
  }

  /** No reply of the handler sets or cancels the timer. */
  ghost predicate Untouched(events: seq<Event>, handler: Handler, n: Id) {
    events == [] || (Untouched(events[..|events| - 1], handler, n) && Leaves(handler(events).commands, n))
  }

  ghost function TimesOf(events: seq<Event>, n: Id): seq<Time> {
    if events == [] then []
    else
      var before, e := TimesOf(events[..|events| - 1], n), events[|events| - 1];
      if e.name == n then before + [e.time] else before
  }

  lemma {:induction false} ObeyUntouched(ts: TimerSet, now: Time, cs: seq<Command>, n: Id)
    requires Leaves(cs, n)
    ensures n in ObeyAll(ts, now, cs) <==> n in ts
    ensures n in ts ==> ObeyAll(ts, now, cs)[n] == ts[n]
  {
    if cs != [] { ObeyUntouched(ts, now, cs[..|cs| - 1], n); }
  }

  function Tick(t: Timer, k: nat): Time {
    t.next + k * t.interval
  }

  lemma TickNext(t: Timer, k: nat)
    ensures Tick(t, k + 1) == Tick(t, k) + t.interval
  {
  }

  lemma TickMonotone(t: Timer, j: nat, k: nat)
    requires 0 < t.interval && j <= k
    ensures Tick(t, j) <= Tick(t, k)
  {
    assert j * t.interval <= k * t.interval;
  }

  /** A timer no command touches fires at its start and every interval from there. */
  lemma {:induction false} PeriodicFiring(ts: TimerSet, events: seq<Event>, until: Time, handler: Handler, n: Id)
    requires Sound(ts) && Dispatched(ts, events, until, handler) && n in ts && Untouched(events, handler, n)
    ensures n in After(ts, events, handler)
    ensures After(ts, events, handler)[n] == Timer(ts[n].interval, Tick(ts[n], |TimesOf(events, n)|))
    ensures forall k :: 0 <= k < |TimesOf(events, n)| ==> TimesOf(events, n)[k] == Tick(ts[n], k) <= until
  {
    if events != [] {
      var before, e := events[..|events| - 1], events[|events| - 1];
      PeriodicFiring(ts, before, until, handler, n);
      ObeyUntouched(After(ts, before, handler), e.time, handler(events).commands, n);
      TickNext(ts[n], |TimesOf(before, n)|);
    }
  }

  /** Once a dispatch leaves nothing due, such a timer has fired at exactly the multiples up to the horizon. */
  lemma FiresExactly(ts: TimerSet, events: seq<Event>, until: Time, handler: Handler, n: Id, k: nat)
    requires Sound(ts) && Dispatched(ts, events, until, handler) && n in ts && Untouched(events, handler, n)
    requires NothingDue(After(ts, events, handler), until)
    ensures Tick(ts[n], k) <= until <==> k < |TimesOf(events, n)|
    ensures k < |TimesOf(events, n)| ==> TimesOf(events, n)[k] == Tick(ts[n], k)
  {
    PeriodicFiring(ts, events, until, handler, n);
    if |TimesOf(events, n)| <= k { TickMonotone(ts[n], |TimesOf(events, n)|, k); }
  }

  class Scheduler {
    var timers: TimerSet
    var now: Time

    ghost predicate Valid()
      reads this
    {
      Sound(timers)
    }

    constructor (start: Time)
      ensures Valid() && timers == map[] && now == start
    {
      timers, now := map[], start;
    }

    method SetTimer(name: Id, interval: int) returns (ok: bool)
      requires Valid()
      modifies this
      ensures Valid() && now == old(now) && ok == (name != NO_ID && 0 < interval)
      ensures timers == Obey(old(timers), now, Command.SetTimer(name, interval))
    {
      if name == NO_ID || interval <= 0 { return false; }
      timers := timers[name := Timer(interval, now + interval)];
      ok := true;
    }

    method CancelTimer(name: Id)
      requires Valid()
      modifies this
      ensures Valid() && now == old(now) && timers == Obey(old(timers), now, Command.CancelTimer(name))
    {
      timers := timers - {name};
    }

    method Run(cs: seq<Command>)
      requires Valid()
      modifies this
      ensures Valid() && now == old(now) && timers == ObeyAll(old(timers), now, cs)
    {
      for i := 0 to |cs|
        invariant Valid() && now == old(now) && timers == ObeyAll(old(timers), now, cs[..i])
      {
        assert cs[..i + 1][..i] == cs[..i];
        match cs[i]
        case SetTimer(n, interval) => var _ := SetTimer(n, interval);
        case CancelTimer(n) => CancelTimer(n);
      }
      assert cs[..|cs|] == cs;
    }

    /** Fires everything due up to `until`; `events` is what the handler and the bus saw. */
    method DispatchTimersDue(until: Time, handler: Handler) returns (events: seq<Event>, ok: bool)
      requires Valid()
      modifies this
      ensures Valid() && Dispatched(old(timers), events, until, handler) && Increasing(events)
      ensures ok ==> timers == After(old(timers), events, handler) && NothingDue(timers, until)
      ensures !ok ==> events != [] && !handler(events).ok && timers == Interrupted(old(timers), events, handler)
      ensures events != [] ==> now == events[|events| - 1].time
    {
      events, ok := [], true;
      ghost var floor := FloorExists(timers);
      var found := NextDueTimer(timers, until);
      while found.Some?
        invariant Valid() && ok && Floor(timers, floor)
        invariant timers == After(old(timers), events, handler)
        invariant Dispatched(old(timers), events, until, handler)
        invariant events != [] ==> handler(events).ok && now == events[|events| - 1].time
        invariant found.None? ==> NothingDue(timers, until)
        invariant found.Some? ==> IsNext(timers, until, found.value)
        decreases until - floor, DueAt(timers, floor)
      {
        var e := found.value;
        ghost var before := timers;
        now := e.time;
        assert (events + [e])[..|events|] == events;
        events := events + [e];
        var reply := handler(events);
        Run(reply.commands);
        FireMovesOn(before, until, e, reply.commands);
        FireShrinks(before, until, e, reply.commands);
        FiringOrder(old(timers), events, until, handler);
        if !reply.ok { return events, false; }
        timers := Advance(timers, e);
        floor := e.time;
        found := NextDueTimer(timers, until);
      }
      FiringOrder(old(timers), events, until, handler);
    }
  }
}
