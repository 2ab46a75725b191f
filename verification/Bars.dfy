/** Time bars: a stream of market events cut into maximal runs that share a time bucket. */
module Bars {
  import opened Model

  /** A market event, one payload each; times are measured from the zero time. */
  datatype MarketEvent =
    | Trade(instrument: Id, price: real, size: real, time: Time)
    | Ticker(instrument: Id, last: real, time: Time)
    | Quote(instrument: Id, bid: real, ask: real, time: Time)
    | Other(instrument: Id)

  /** A bar without its type, which is the aggregator's. */
  datatype Bar = Bar(open: real, high: real, low: real, close: real, volume: real, timestamp: Time, init: Time) {
    predicate Valid() {
      && 0.0 < open && 0.0 < high && 0.0 < low && 0.0 < close && 0.0 <= volume
      && open <= high && low <= high && close <= high && low <= open && low <= close
    }
  }

  /** What an event contributes to a bar. */
  datatype Tick = Tick(price: real, volume: real, time: Time)

  function AggregationInput(e: MarketEvent, instrument: Id): Option<Tick> {
    if e.instrument != instrument then None
    else match e
      case Trade(_, price, size, time) => Some(Tick(price, size, time))
      case Ticker(_, last, time) => if 0.0 < last then Some(Tick(last, 0.0, time)) else None
      case Quote(_, bid, ask, time) => Some(Tick((bid + ask) / 2.0, 0.0, time))
      case Other(_) => None
  }

  function Bucket(time: Time, step: int): Time
    requires 0 < step
  {
    time - time % step
  }

  /** The aggregator: one bar in the making. */
  class BarAggregator {
    const instrument: Id
    const step: int
    var current: Option<Bar>

    ghost predicate Valid() {
      0 < step
    }

    constructor (i: Id, s: int)
      requires 0 < s
      ensures Valid() && instrument == i && step == s && current == None
    {
      instrument, step, current := i, s, None;
    }

    /** The bar the event completes, if any; it is returned even when it does not validate. */
    method Update(e: MarketEvent) returns (completed: Option<Bar>, ok: bool)
      requires Valid()
      modifies this
      ensures var tick := AggregationInput(e, instrument);
              if tick.None? then current == old(current) && completed == None
              else Progress(current, completed) == Aggregate(old(current), tick.value, step)
      ensures ok == (completed.Some? ==> completed.value.Valid())
    {
      completed, ok := None, true;
      var tick := AggregationInput(e, instrument);
      if tick.None? { return; }
      var t := tick.value;
      var bucket := Bucket(t.time, step);
      if current.None? {
        current := Some(Bar(t.price, t.price, t.price, t.price, t.volume, bucket, t.time));
        return;
      }
      var bar := current.value;
      if bar.timestamp != bucket {
        completed, ok := current, bar.Valid();
        current := Some(Bar(t.price, t.price, t.price, t.price, t.volume, bucket, t.time));
        return;
      }
      if bar.high < t.price { bar := bar.(high := t.price); }
      if t.price < bar.low { bar := bar.(low := t.price); }
      current := Some(bar.(close := t.price, volume := bar.volume + t.volume));
    }

    method Flush() returns (last: Option<Bar>, ok: bool)
      modifies this
      ensures last == old(current) && current == None && ok == (last.Some? ==> last.value.Valid())
    {
      last, current := current, None;
      ok := last.Some? ==> last.value.Valid();
    }
  }

  datatype Progress = Progress(current: Option<Bar>, completed: Option<Bar>)

  function Opening(t: Tick, step: int): Bar
    requires 0 < step
  {
    Bar(t.price, t.price, t.price, t.price, t.volume, Bucket(t.time, step), t.time)
  }

  function Widen(b: Bar, t: Tick): Bar {
    b.(high := if b.high < t.price then t.price else b.high, low := if t.price < b.low then t.price else b.low,
       close := t.price, volume := b.volume + t.volume)
  }

  function Aggregate(current: Option<Bar>, t: Tick, step: int): Progress
    requires 0 < step
  {
    if current.None? then Progress(Some(Opening(t, step)), None)
    else if current.value.timestamp != Bucket(t.time, step) then Progress(Some(Opening(t, step)), current)
    else Progress(Some(Widen(current.value, t)), None)
  }

  ghost predicate MultipleOf(b: int, step: int, q: int) {
    b == q * step
  }

  /** A bucket starts at the last multiple of the step that is not after its times. */
  lemma BucketHolds(time: Time, step: int)
    requires 0 < step
    ensures Bucket(time, step) <= time < Bucket(time, step) + step
    ensures exists q :: MultipleOf(Bucket(time, step), step, q)
    ensures forall b, q :: MultipleOf(b, step, q) && b <= time ==> b <= Bucket(time, step)
  {
    var p := time / step;
    assert MultipleOf(Bucket(time, step), step, p);
    forall b, q | MultipleOf(b, step, q) && b <= time ensures b <= Bucket(time, step) {
      if p < q { StepApart(p, q, step); } else { StepApart(q, p + 1, step); }
    }
  }

  lemma StepApart(p: int, q: int, step: int)
    requires 0 < step && p < q
    ensures p * step + step <= q * step
  {
    NonNegative(q - p - 1, step);
    assert (q - p - 1) * step == q * step - p * step - step;
  }

  lemma NonNegative(x: int, y: int)
    requires 0 <= x && 0 <= y
    ensures 0 <= x * y
  {
  }

  /** What an event contributes: a trade its price and size, a ticker its last price if it has one, a quote its
      midpoint, and nothing for another instrument. */
  lemma Contributes(e: MarketEvent, instrument: Id)
    ensures AggregationInput(e, instrument).Some? <==>
              e.instrument == instrument && (e.Trade? || e.Quote? || (e.Ticker? && 0.0 < e.last))
    ensures AggregationInput(e, instrument).Some? ==>
              var tick := AggregationInput(e, instrument).value;
              && tick.time == e.time
              && (e.Trade? ==> tick.price == e.price && tick.volume == e.size)
              && (e.Ticker? ==> tick.price == e.last && tick.volume == 0.0)
              && (e.Quote? ==> tick.price - e.bid == e.ask - tick.price && tick.volume == 0.0)
  {
  }

  // ----- Whole streams -----

  function Accepted(events: seq<MarketEvent>, instrument: Id): seq<Tick> {
    if events == [] then []
    else
      var before, tick := Accepted(events[..|events| - 1], instrument),
        AggregationInput(events[|events| - 1], instrument);
      if tick.Some? then before + [tick.value] else before
  }

  datatype Output = Output(emitted: seq<Bar>, current: Option<Bar>) {
    /** The bars emitted so far and the one a flush would add. */
    function Flushed(): seq<Bar> {
      if current.Some? then emitted + [current.value] else emitted
    }
  }

  function Emit(out: Output, t: Tick, step: int): Output
    requires 0 < step
  {
    var p := Aggregate(out.current, t, step);
    Output(if p.completed.Some? then out.emitted + [p.completed.value] else out.emitted, p.current)
  }

  /** The aggregator over a stream of events, fed one at a time. */
  function Feed(events: seq<MarketEvent>, instrument: Id, step: int): Output
    requires 0 < step
  {
    if events == [] then Output([], None)
    else
      var before, tick := Feed(events[..|events| - 1], instrument, step),
        AggregationInput(events[|events| - 1], instrument);
      if tick.Some? then Emit(before, tick.value, step) else before
  }

  // ----- The reference: maximal runs -----

  function Concat(runs: seq<seq<Tick>>): seq<Tick> {
    if runs == [] then [] else Concat(runs[..|runs| - 1]) + runs[|runs| - 1]
  }

  ghost predicate OneBucket(run: seq<Tick>, step: int)
    requires 0 < step
  {
    run != [] && forall i :: 0 <= i < |run| ==> Bucket(run[i].time, step) == Bucket(run[0].time, step)
  }

  /** `runs` cuts the ticks into runs of one bucket each, and neighbouring runs have different buckets. */
  ghost predicate MaximalRuns(runs: seq<seq<Tick>>, ticks: seq<Tick>, step: int)
    requires 0 < step
  {
    && Concat(runs) == ticks
    && (forall i :: 0 <= i < |runs| ==> OneBucket(runs[i], step))
    && (forall i :: 0 < i < |runs| ==> Bucket(runs[i][0].time, step) != Bucket(runs[i - 1][0].time, step))
  }

  function Volume(run: seq<Tick>): real {
    if run == [] then 0.0 else Volume(run[..|run| - 1]) + run[|run| - 1].volume
  }

  /** `b` summarizes a run: first, highest, lowest and last price, and the total volume. */
  ghost predicate Summarizes(b: Bar, run: seq<Tick>, step: int)
    requires 0 < step
  {
    && run != [] && b.open == run[0].price && b.close == run[|run| - 1].price && b.volume == Volume(run)
    && b.timestamp == Bucket(run[0].time, step) && b.init == run[0].time
    && (exists i :: 0 <= i < |run| && run[i].price == b.high) && (exists i :: 0 <= i < |run| && run[i].price == b.low)
    && (forall i :: 0 <= i < |run| ==> b.low <= run[i].price <= b.high)
  }

  ghost predicate AllSummarize(bars: seq<Bar>, runs: seq<seq<Tick>>, step: int)
    requires 0 < step
  {
    |bars| == |runs| && forall i :: 0 <= i < |bars| ==> Summarizes(bars[i], runs[i], step)
  }

  lemma WidenSummarizes(b: Bar, run: seq<Tick>, t: Tick, step: int)
    requires 0 < step && Summarizes(b, run, step)
    ensures Summarizes(Widen(b, t), run + [t], step)
  {
    var all := run + [t];
    assert all[..|run|] == run && all[|run|] == t;
    var i, j :| 0 <= i < |run| && run[i].price == b.high && 0 <= j < |run| && run[j].price == b.low;
    assert all[i].price == b.high && all[j].price == b.low;
  }

  lemma OpeningSummarizes(t: Tick, step: int)
    requires 0 < step
    ensures Summarizes(Opening(t, step), [t], step)
  {
    assert [t][..0] == [];
    assert [t][0] == t;
  }

  /** The runs after one more tick: it joins the last run or starts another. */
  function Extend(runs: seq<seq<Tick>>, t: Tick, step: int): seq<seq<Tick>>
    requires 0 < step
  {
    var n := |runs|;
    if n == 0 || runs[n - 1] == [] || Bucket(runs[n - 1][0].time, step) != Bucket(t.time, step) then runs + [[t]]
    else runs[..n - 1] + [runs[n - 1] + [t]]
  }

  lemma ExtendMaximal(runs: seq<seq<Tick>>, ticks: seq<Tick>, t: Tick, step: int)
    requires 0 < step && MaximalRuns(runs, ticks, step)
    ensures MaximalRuns(Extend(runs, t, step), ticks + [t], step)
  {
    ExtendConcat(runs, t, step);
    forall i | 0 <= i < |Extend(runs, t, step)| ensures OneBucket(Extend(runs, t, step)[i], step) {
      ExtendBuckets(runs, t, step, i);
    }
    forall i | 0 < i < |Extend(runs, t, step)|
      ensures Bucket(Extend(runs, t, step)[i][0].time, step) != Bucket(Extend(runs, t, step)[i - 1][0].time, step)
    {
      ExtendBuckets(runs, t, step, i);
      ExtendBuckets(runs, t, step, i - 1);
      assert i < |runs| ==> Bucket(runs[i][0].time, step) != Bucket(runs[i - 1][0].time, step);
    }
  }

  lemma ExtendBuckets(runs: seq<seq<Tick>>, t: Tick, step: int, i: nat)
    requires 0 < step && i < |Extend(runs, t, step)| && forall j :: 0 <= j < |runs| ==> OneBucket(runs[j], step)
    ensures var next := Extend(runs, t, step);
            OneBucket(next[i], step) && next[i][0] == (if i < |runs| then runs[i][0] else t)
  {
    if i < |runs| { assert OneBucket(runs[i], step); }
  }

  lemma ExtendConcat(runs: seq<seq<Tick>>, t: Tick, step: int)
    requires 0 < step
    ensures Concat(Extend(runs, t, step)) == Concat(runs) + [t]
  {
    if |Extend(runs, t, step)| == |runs| { JoinConcat(runs, t); } else { assert (runs + [[t]])[..|runs|] == runs; }
  }

  lemma JoinConcat(runs: seq<seq<Tick>>, t: Tick)
    requires runs != []
    ensures Concat(runs[..|runs| - 1] + [runs[|runs| - 1] + [t]]) == Concat(runs) + [t]
  {
    var n := |runs| - 1;
    assert (runs[..n] + [runs[n] + [t]])[..n] == runs[..n];
    assert Concat(runs[..n]) + (runs[n] + [t]) == (Concat(runs[..n]) + runs[n]) + [t];
  }

  /** The aggregator's output agrees with a cut of the ticks into runs. */
  ghost predicate Agrees(out: Output, runs: seq<seq<Tick>>, step: int)
    requires 0 < step
  {
    AllSummarize(out.Flushed(), runs, step) && (out.current.None? ==> out.emitted == [])
  }

  lemma EmitAgrees(out: Output, runs: seq<seq<Tick>>, t: Tick, step: int)
    requires 0 < step && Agrees(out, runs, step)
    ensures Agrees(Emit(out, t, step), Extend(runs, t, step), step)
  {
    OpeningSummarizes(t, step);
    if out.current.Some? {
      var n := |runs| - 1;
      assert out.Flushed()[n] == out.current.value;
      if out.current.value.timestamp == Bucket(t.time, step) { WidenSummarizes(out.current.value, runs[n], t, step); }
    }
  }

  /** Emitted bars and the flush are exactly the summaries of the maximal runs of accepted events, for any stream. */
  lemma {:induction false} BarsAreRuns(events: seq<MarketEvent>, instrument: Id, step: int)
      returns (runs: seq<seq<Tick>>)
    requires 0 < step
    ensures MaximalRuns(runs, Accepted(events, instrument), step) && Agrees(Feed(events, instrument, step), runs, step)
  {
    if events == [] {
      runs := [];
    } else {
      var before, tick := events[..|events| - 1], AggregationInput(events[|events| - 1], instrument);
      runs := BarsAreRuns(before, instrument, step);
      if tick.Some? {
        ExtendMaximal(runs, Accepted(before, instrument), tick.value, step);
        EmitAgrees(Feed(before, instrument, step), runs, tick.value, step);
        runs := Extend(runs, tick.value, step);
      }
    }
  }

  /** A run and what follows it in a cut, seen from its last run. */
  lemma LastRun(runs: seq<seq<Tick>>, ticks: seq<Tick>, step: int)
    requires 0 < step && MaximalRuns(runs, ticks, step) && runs != []
    ensures var last := runs[|runs| - 1]; var cut := |ticks| - |last|;
            && 0 <= cut < |ticks| && ticks[cut..] == last && ticks[..cut] == Concat(runs[..|runs| - 1])
            && MaximalRuns(runs[..|runs| - 1], ticks[..cut], step)
            && (forall i :: cut <= i < |ticks| ==> Bucket(ticks[i].time, step) == Bucket(ticks[|ticks| - 1].time, step))
            && (0 < cut ==> Bucket(ticks[cut - 1].time, step) != Bucket(ticks[|ticks| - 1].time, step))
  {
    var n := |runs| - 1;
    var last, cut := runs[n], |ticks| - |runs[n]|;
    assert forall i :: cut <= i < |ticks| ==> ticks[i] == last[i - cut];
    if 0 < cut {
      assert n > 0;
      var prior := runs[n - 1];
      assert runs[..n][..n - 1] == runs[..n - 1];
      assert ticks[cut - 1] == Concat(runs[..n])[cut - 1] == prior[|prior| - 1];
    }
  }

  /** There is only one such cut. */
  lemma {:induction false} RunsUnique(a: seq<seq<Tick>>, b: seq<seq<Tick>>, ticks: seq<Tick>, step: int)
    requires 0 < step && MaximalRuns(a, ticks, step) && MaximalRuns(b, ticks, step)
    ensures a == b
    decreases |ticks|
  {
    if ticks == [] {
      NoRuns(a, step);
      NoRuns(b, step);
    } else {
      assert a != [] && b != [];
      LastRun(a, ticks, step);
      LastRun(b, ticks, step);
      var cut, cut' := |ticks| - |a[|a| - 1]|, |ticks| - |b[|b| - 1]|;
      assert cut == cut';
      RunsUnique(a[..|a| - 1], b[..|b| - 1], ticks[..cut], step);
      assert a == a[..|a| - 1] + [a[|a| - 1]] && b == b[..|b| - 1] + [b[|b| - 1]];
    }
  }

  lemma NoRuns(runs: seq<seq<Tick>>, step: int)
    requires 0 < step && MaximalRuns(runs, [], step)
    ensures runs == []
  {
    if runs != [] { LastRun(runs, [], step); }
  }

  // ----- Conservation and validity -----

  function Total(bars: seq<Bar>): real {
    if bars == [] then 0.0 else Total(bars[..|bars| - 1]) + bars[|bars| - 1].volume
  }

  lemma {:induction false} VolumeAdds(a: seq<Tick>, b: seq<Tick>)
    ensures Volume(a + b) == Volume(a) + Volume(b)
  {
    if b == [] {
      assert a + b == a;
    } else {
      assert (a + b)[..|a + b| - 1] == a + b[..|b| - 1];
      VolumeAdds(a, b[..|b| - 1]);
    }
  }

  lemma {:induction false} SummariesTotal(bars: seq<Bar>, runs: seq<seq<Tick>>, step: int)
    requires 0 < step && AllSummarize(bars, runs, step)
    ensures Total(bars) == Volume(Concat(runs))
  {
    if bars != [] {
      var n := |bars| - 1;
      SummariesTotal(bars[..n], runs[..n], step);
      VolumeAdds(Concat(runs[..n]), runs[n]);
    }
  }

  /** The size of all trades in the instrument. */
  function Traded(events: seq<MarketEvent>, instrument: Id): real {
    if events == [] then 0.0
    else
      var e := events[|events| - 1];
      Traded(events[..|events| - 1], instrument) + if e.Trade? && e.instrument == instrument then e.size else 0.0
  }

  lemma {:induction false} AcceptedVolume(events: seq<MarketEvent>, instrument: Id)
    ensures Volume(Accepted(events, instrument)) == Traded(events, instrument)
  {
    if events != [] {
      var before := Accepted(events[..|events| - 1], instrument);
      AcceptedVolume(events[..|events| - 1], instrument);
      var tick := AggregationInput(events[|events| - 1], instrument);
      if tick.Some? { assert (before + [tick.value])[..|before|] == before; }
    }
  }

  /** No traded volume is lost or counted twice, and nothing else adds any. */
  lemma VolumeConserved(events: seq<MarketEvent>, instrument: Id, step: int)
    requires 0 < step
    ensures Total(Feed(events, instrument, step).Flushed()) == Volume(Accepted(events, instrument))
    ensures Total(Feed(events, instrument, step).Flushed()) == Traded(events, instrument)
  {
    AcceptedVolume(events, instrument);
    var runs := BarsAreRuns(events, instrument, step);
    SummariesTotal(Feed(events, instrument, step).Flushed(), runs, step);
  }

  /** A bar validates exactly when its run has positive prices and no negative total volume. */
  lemma SummaryValid(b: Bar, run: seq<Tick>, step: int)
    requires 0 < step && Summarizes(b, run, step)
    ensures b.Valid() <==> 0.0 <= Volume(run) && forall i :: 0 <= i < |run| ==> 0.0 < run[i].price
  {
    assert b.low <= run[0].price <= b.high && b.low <= run[|run| - 1].price <= b.high;
  }

  predicate Positive(t: Tick) {
    0.0 < t.price && 0.0 <= t.volume
  }

  ghost predicate AllPositive(ticks: seq<Tick>) {
    forall i :: 0 <= i < |ticks| ==> Positive(ticks[i])
  }

  lemma {:induction false} PositiveVolume(run: seq<Tick>)
    requires AllPositive(run)
    ensures 0.0 <= Volume(run)
  {
    if run != [] { PositiveVolume(run[..|run| - 1]); }
  }

  lemma {:induction false} PositiveRuns(runs: seq<seq<Tick>>)
    requires AllPositive(Concat(runs))
    ensures forall i :: 0 <= i < |runs| ==> AllPositive(runs[i])
  {
    if runs != [] {
      var n := |runs| - 1;
      assert forall j :: 0 <= j < |Concat(runs[..n])| ==> Concat(runs)[j] == Concat(runs[..n])[j];
      assert forall j :: 0 <= j < |runs[n]| ==> Concat(runs)[|Concat(runs[..n])| + j] == runs[n][j];
      PositiveRuns(runs[..n]);
    }
  }

  /** Positive inputs give bars that all validate. */
  lemma BarsValid(events: seq<MarketEvent>, instrument: Id, step: int)
    requires 0 < step && AllPositive(Accepted(events, instrument))
    ensures forall i :: 0 <= i < |Feed(events, instrument, step).Flushed()| ==>
                Feed(events, instrument, step).Flushed()[i].Valid()
  {
    var runs := BarsAreRuns(events, instrument, step);
    PositiveRuns(runs);
    var bars := Feed(events, instrument, step).Flushed();
    forall i | 0 <= i < |bars| ensures bars[i].Valid() {
      PositiveVolume(runs[i]);
      SummaryValid(bars[i], runs[i], step);
    }
  }
}
