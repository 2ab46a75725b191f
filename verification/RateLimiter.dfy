/** The sliding-window command limiter of the risk engine: only the last window's passes are kept, filtered in place. */
module RateLimiter {
  import opened Model

  const ONE_SECOND: int := 1_000_000_000

  function Window(width: int): int {
    if width <= 0 then ONE_SECOND else width
  }

  /** The times after a cutoff, in order. */
  function Recent(s: seq<Time>, cutoff: Time): seq<Time> {
    if s == [] then []
    else
      var before, t := Recent(s[..|s| - 1], cutoff), s[|s| - 1];
      if cutoff < t then before + [t] else before
  }

  datatype Checked = Checked(kept: seq<Time>, passes: bool)

  function Check(s: seq<Time>, max: int, width: int, now: Time): Checked {
    if max <= 0 then Checked(s, true)
    else
      var kept := Recent(s, now - Window(width));
      if max <= |kept| then Checked(kept, false) else Checked(kept + [now], true)
  }

  /** The limiter; `window[..count]` is the slice, which shares its array with what it is filtered from. */
  class Limiter {
    var window: array<Time>
    var count: nat

    ghost predicate Valid()
      reads this
    {
      count <= window.Length
    }

    ghost function Contents(): seq<Time>
      requires Valid()
      reads this, window
    {
      window[..count]
    }

    constructor ()
      ensures Valid() && fresh(window) && Contents() == []
    {
      window, count := new Time[0], 0;
    }

    /** Moves the recent times to the front of the slice they are read from. */
    method Filter(cutoff: Time)
      requires Valid()
      modifies this`count, window
      ensures Valid() && window == old(window) && Contents() == Recent(old(Contents()), cutoff)
    {
      ghost var before := Contents();
      var kept := 0;
      for i := 0 to count
        invariant kept <= i && count == |before| && window[i..count] == before[i..]
        invariant window[..kept] == Recent(before[..i], cutoff)
      {
        var t := window[i];
        assert t == window[i..count][0] == before[i];
        assert before[..i + 1][..i] == before[..i];
        ghost var rest := window[i + 1..count];
        assert rest == window[i..count][1..] == before[i..][1..];
        if cutoff < t {
          window[kept] := t;
          kept := kept + 1;
          assert window[i + 1..count] == rest;
        }
      }
      assert before[..count] == before;
      count := kept;
    }

    /** Appends to the slice, in a larger array once the old one is full. */
    method Append(t: Time)
      requires Valid()
      modifies this, window
      ensures Valid() && (window == old(window) || fresh(window)) && Contents() == old(Contents()) + [t]
    {
      if count == window.Length {
        var larger := new Time[2 * count + 1];
        for i := 0 to count
          invariant window == old(window) && count == old(count) && window[..] == old(window[..])
          invariant larger[..i] == window[..i]
        {
          larger[i] := window[i];
        }
        window := larger;
      }
      window[count] := t;
      count := count + 1;
    }

    method CheckCommandRate(max: int, width: int, now: Time) returns (passes: bool)
      requires Valid()
      modifies this, window
      ensures Valid() && (window == old(window) || fresh(window))
      ensures Checked(Contents(), passes) == Check(old(Contents()), max, width, now)
    {
      if max <= 0 { return true; }
      Filter(now - Window(width));
      if max <= count { return false; }
      Append(now);
      passes := true;
    }
  }

  // ----- The whole history -----

  /** Everything that ever passed, and what the limiter remembers of it. */
  datatype History = History(passed: seq<Time>, kept: seq<Time>)

  function Command(h: History, max: int, width: int, now: Time): History {
    var c := Check(h.kept, max, width, now);
    History(if c.passes then h.passed + [now] else h.passed, c.kept)
  }

  /** One clock reading per command. */
  ghost function Run(nows: seq<Time>, max: int, width: int): History {
    if nows == [] then History([], [])
    else Command(Run(nows[..|nows| - 1], max, width), max, width, nows[|nows| - 1])
  }

  ghost predicate UpTo(s: seq<Time>, t: Time) {
    forall i :: 0 <= i < |s| ==> s[i] <= t
  }

  /** No reading is earlier than one before it. */
  ghost predicate NonDecreasing(nows: seq<Time>) {
    nows == [] || (NonDecreasing(nows[..|nows| - 1]) && UpTo(nows[..|nows| - 1], nows[|nows| - 1]))
  }

  lemma {:induction false} RecentTwice(s: seq<Time>, cutoff: Time, later: Time)
    requires cutoff <= later
    ensures Recent(Recent(s, cutoff), later) == Recent(s, later)
  {
    if s != [] {
      RecentTwice(s[..|s| - 1], cutoff, later);
      var before, t := Recent(s[..|s| - 1], cutoff), s[|s| - 1];
      if cutoff < t { assert (before + [t])[..|before|] == before; }
    }
  }

  lemma RecentAppend(s: seq<Time>, t: Time, cutoff: Time)
    ensures Recent(s + [t], cutoff) == if cutoff < t then Recent(s, cutoff) + [t] else Recent(s, cutoff)
  {
    assert (s + [t])[..|s|] == s;
  }

  lemma SameRecent(kept: seq<Time>, passed: seq<Time>, cutoff: Time, later: Time)
    requires cutoff <= later && Recent(kept, cutoff) == Recent(passed, cutoff)
    ensures Recent(Recent(kept, cutoff), later) == Recent(passed, later)
  {
    RecentTwice(passed, cutoff, later);
  }

  /** What a command leaves agrees with the history on any later window, whether or not it passed. */
  lemma StillSuffices(kept: seq<Time>, passed: seq<Time>, cutoff: Time, later: Time, now: Time, next: History)
    requires cutoff <= later && Recent(kept, cutoff) == Recent(passed, cutoff)
    requires next == History(passed, Recent(kept, cutoff))
                 || next == History(passed + [now], Recent(kept, cutoff) + [now])
    ensures Recent(next.kept, later) == Recent(next.passed, later)
  {
    SameRecent(kept, passed, cutoff, later);
    if next.passed != passed { AppendSame(Recent(kept, cutoff), passed, now, later); }
  }

  lemma CommandSuffices(h: History, max: int, width: int, now: Time, t: Time)
    requires 0 < max && now <= t && Recent(h.kept, now - Window(width)) == Recent(h.passed, now - Window(width))
    ensures Recent(Command(h, max, width, now).kept, t - Window(width)) ==
                Recent(Command(h, max, width, now).passed, t - Window(width))
  {
    StillSuffices(h.kept, h.passed, now - Window(width), t - Window(width), now, Command(h, max, width, now));
  }

  lemma AppendSame(kept: seq<Time>, passed: seq<Time>, now: Time, cutoff: Time)
    requires Recent(kept, cutoff) == Recent(passed, cutoff)
    ensures Recent(kept + [now], cutoff) == Recent(passed + [now], cutoff)
  {
    RecentAppend(kept, now, cutoff);
    RecentAppend(passed, now, cutoff);
  }

  /** To any later command the slice is as good as the whole history. */
  lemma {:induction false} KeptSuffices(nows: seq<Time>, max: int, width: int, t: Time)
    requires NonDecreasing(nows) && UpTo(nows, t) && 0 < max
    ensures Recent(Run(nows, max, width).kept, t - Window(width)) ==
                Recent(Run(nows, max, width).passed, t - Window(width))
  {
    if nows != [] {
      var before, now := nows[..|nows| - 1], nows[|nows| - 1];
      KeptSuffices(before, max, width, now);
      CommandSuffices(Run(before, max, width), max, width, now, t);
    }
  }

  /** How many of the times lie in the half-open interval from `from` to `to`. */
  function Within(s: seq<Time>, from: Time, to: Time): nat {
    if s == [] then 0 else Within(s[..|s| - 1], from, to) + if from < s[|s| - 1] <= to then 1 else 0
  }

  lemma {:induction false} RecentCounts(s: seq<Time>, from: Time, to: Time)
    requires UpTo(s, to)
    ensures |Recent(s, from)| == Within(s, from, to)
  {
    if s != [] { RecentCounts(s[..|s| - 1], from, to); }
  }

  lemma {:induction false} PassedAreReadings(nows: seq<Time>, max: int, width: int, to: Time)
    requires UpTo(nows, to)
    ensures UpTo(Run(nows, max, width).passed, to)
  {
    if nows != [] { PassedAreReadings(nows[..|nows| - 1], max, width, to); }
  }

  /** A command passes exactly when fewer than `max` earlier ones passed within the last window of the whole history. */
  lemma PassesIff(nows: seq<Time>, now: Time, max: int, width: int)
    requires NonDecreasing(nows) && UpTo(nows, now) && 0 < max
    ensures Check(Run(nows, max, width).kept, max, width, now).passes
        <==> Within(Run(nows, max, width).passed, now - Window(width), now) < max
  {
    KeptSuffices(nows, max, width, now);
    PassedAreReadings(nows, max, width, now);
    RecentCounts(Run(nows, max, width).passed, now - Window(width), now);
  }

  lemma {:induction false} WithinMonotone(s: seq<Time>, from: Time, to: Time, from': Time, to': Time)
    requires from <= from' && UpTo(s, to)
    ensures Within(s, from', to') <= Within(s, from, to)
  {
    if s != [] { WithinMonotone(s[..|s| - 1], from, to, from', to'); }
  }

  lemma OneMore(passed: seq<Time>, now: Time, max: int, w: int, t: Time)
    requires UpTo(passed, now) && Within(passed, now - w, now) < max && Within(passed, t - w, t) <= max
    ensures Within(passed + [now], t - w, t) <= max
  {
    assert (passed + [now])[..|passed|] == passed;
    if now <= t { WithinMonotone(passed, now - w, now, t - w, t); }
  }

  /** No interval of one window's width, over the whole history, holds more than `max` passes. */
  lemma {:induction false} WindowBound(nows: seq<Time>, max: int, width: int, t: Time)
    requires NonDecreasing(nows) && 0 < max
    ensures Within(Run(nows, max, width).passed, t - Window(width), t) <= max
  {
    if nows != [] {
      var before, now := nows[..|nows| - 1], nows[|nows| - 1];
      WindowBound(before, max, width, t);
      PassesIff(before, now, max, width);
      PassedAreReadings(before, max, width, now);
      CommandBounded(Run(before, max, width), max, width, now, t);
    }
  }

  lemma CommandBounded(h: History, max: int, width: int, now: Time, t: Time)
    requires UpTo(h.passed, now) && Within(h.passed, t - Window(width), t) <= max
    requires Check(h.kept, max, width, now).passes ==> Within(h.passed, now - Window(width), now) < max
    ensures Within(Command(h, max, width, now).passed, t - Window(width), t) <= max
  {
    if Check(h.kept, max, width, now).passes { OneMore(h.passed, now, max, Window(width), t); }
  }

  /** With a limit of `max` and a positive width, a command passes exactly when fewer than `max` earlier ones passed
      within that width, and no interval of that width ever holds more; a width that is not positive means one second.
      */
  lemma RateHolds(nows: seq<Time>, now: Time, max: int, width: int, w: int, t: Time)
    requires NonDecreasing(nows) && UpTo(nows, now) && 0 < max
    requires w == if 0 < width then width else 1_000_000_000
    ensures Within(Run(nows, max, width).passed, t - w, t) <= max
    ensures Run(nows + [now], max, width).passed ==
              if Within(Run(nows, max, width).passed, now - w, now) < max then Run(nows, max, width).passed + [now]
              else Run(nows, max, width).passed
  {
    WindowBound(nows, max, width, t);
    PassesIff(nows, now, max, width);
    assert (nows + [now])[..|nows|] == nows;
  }

  /** Without a limit every command passes and none is remembered. */
  lemma {:induction false} Unlimited(nows: seq<Time>, max: int, width: int)
    requires max <= 0
    ensures Run(nows, max, width) == History(nows, [])
  {
    if nows != [] {
      Unlimited(nows[..|nows| - 1], max, width);
      assert nows == nows[..|nows| - 1] + [nows[|nows| - 1]];
    }
  }
}
