/** The streaming quote aggregator against a batch definition of its bars. */
module Bars {
  import opened Wrappers
  import opened Orders
  import opened OpenRisk

  /** A quote; `at` counts whole seconds. */
  datatype Quote = Quote(
    key: string, at: int, last: Option<real>, mid: Option<real>, bid: Option<real>, ask: Option<real>,
    volume: Option<nat>)

  /** A quote that carries a usable price. */
  datatype Tick = Tick(at: int, price: real, volume: nat)

  datatype Bar = Bar(start: int, end: int, open: real, high: real, low: real, close: real, volume: nat)

  function TickOf(q: Quote): Option<Tick> {
    var price := Or(q.last, Or(q.mid, Or(q.bid, q.ask)));
    if price.None? || price.value <= 0.0 then None
    else Some(Tick(q.at, price.value, if q.volume.Some? then q.volume.value else 0))
  }

  function BucketStart(at: int, seconds: int): (start: int)
    requires seconds > 0
    ensures start <= at < start + seconds
  {
    at - at % seconds
  }

  function MaxNat(a: nat, b: nat): nat { if a < b then b else a }

  function Opened(t: Tick, seconds: int): Bar
    requires seconds > 0
  {
    var start := BucketStart(t.at, seconds);
    Bar(start, start + seconds, t.price, t.price, t.price, t.price, t.volume)
  }

  function Extended(b: Bar, t: Tick): Bar {
    b.(high := Max(b.high, t.price), low := Min(b.low, t.price), close := t.price, volume := MaxNat(b.volume, t.volume))
  }

  class QuoteBarAggregator {
    const seconds: int
    var states: map<string, Bar>

    ghost predicate Valid()
      reads this
    {
      seconds > 0
    }

    constructor (seconds: int)
      requires seconds > 0
      ensures Valid() && this.seconds == seconds && states == map[]
    {
      this.seconds, states := seconds, map[];
    }

    static method Create(seconds: int) returns (r: Option<QuoteBarAggregator>)
      ensures r.Some? <==> seconds > 0
      ensures r.Some? ==> fresh(r.value) && r.value.Valid() && r.value.seconds == seconds && r.value.states == map[]
    {
      if seconds <= 0 { return None; }
      var aggregator := new QuoteBarAggregator(seconds);
      return Some(aggregator);
    }

    method Update(q: Quote) returns (completed: Option<Bar>)
      requires Valid()
      modifies this
      ensures Valid()
      ensures TickOf(q).None? ==> completed.None? && states == old(states)
      ensures TickOf(q).Some? ==>
        var (bar, closed) := Streamed(LookupBar(old(states), q.key), TickOf(q).value, seconds);
        states == old(states)[q.key := bar] && completed == closed
    {
      var price := Or(q.last, Or(q.mid, Or(q.bid, q.ask)));
      if price.None? || price.value <= 0.0 { return None; }
      var volume := if q.volume.Some? then q.volume.value else 0;
      var start := BucketStart(q.at, seconds);
      completed := None;
      var known := q.key in states;
      if known && start >= states[q.key].end {
        completed := Some(states[q.key]);
        known := false;
      }
      if !known {
        states := states[q.key := Bar(start, start + seconds, price.value, price.value, price.value, price.value, volume)];
      } else {
        var state := states[q.key];
        state := state.(high := Max(state.high, price.value), low := Min(state.low, price.value));
        state := state.(close := price.value, volume := MaxNat(state.volume, volume));
        states := states[q.key := state];
      }
    }

    method Flush() returns (bars: map<string, Bar>)
      requires Valid()
      modifies this
      ensures Valid() && bars == old(states) && states == map[]
    {
      bars := states;
      states := map[];
    }
  }

  function LookupBar(states: map<string, Bar>, key: string): Option<Bar> {
    if key in states then Some(states[key]) else None
  }

  /** One tick of one instrument: the bar it leaves open, and the bar it completes. */
  function Streamed(open: Option<Bar>, t: Tick, seconds: int): (Bar, Option<Bar>)
    requires seconds > 0
  {
    var start := BucketStart(t.at, seconds);
    if open.None? then (Opened(t, seconds), None)
    else if start >= open.value.end then (Opened(t, seconds), open)
    else (Extended(open.value, t), None)
  }

  // -------------------------------------------------------------- batch definition

  predicate InOrder(ts: seq<Tick>) { forall i, j | 0 <= i < j < |ts| :: ts[i].at <= ts[j].at }

  predicate SameBucket(ts: seq<Tick>, seconds: int)
    requires seconds > 0
  {
    ts != [] && forall i | 0 <= i < |ts| :: BucketStart(ts[i].at, seconds) == BucketStart(ts[0].at, seconds)
  }

  /** The bar of a group: first, greatest, least and last price, and the greatest volume. */
  ghost predicate Summarizes(b: Bar, ts: seq<Tick>, seconds: int)
    requires seconds > 0
  {
    && SameBucket(ts, seconds)
    && b.start == BucketStart(ts[0].at, seconds) && b.end == b.start + seconds
    && b.open == ts[0].price && b.close == ts[|ts| - 1].price
    && (forall i | 0 <= i < |ts| :: b.low <= ts[i].price <= b.high && ts[i].volume <= b.volume)
    && (exists i :: 0 <= i < |ts| && ts[i].price == b.high)
    && (exists i :: 0 <= i < |ts| && ts[i].price == b.low)
    && (exists i :: 0 <= i < |ts| && ts[i].volume == b.volume)
  }

  /** Ticks grouped by bucket: `groups` concatenates to `ts`, one bucket per group, buckets increasing. */
  ghost predicate Grouped(ts: seq<Tick>, groups: seq<seq<Tick>>, seconds: int)
    requires seconds > 0
  {
    && ts == Flatten(groups)
    && (forall g | 0 <= g < |groups| :: SameBucket(groups[g], seconds))
    && (forall g, h | 0 <= g < h < |groups| :: BucketStart(groups[g][0].at, seconds) < BucketStart(groups[h][0].at, seconds))
  }

  function Flatten<T>(groups: seq<seq<T>>): seq<T> {
    if groups == [] then [] else Flatten(groups[..|groups| - 1]) + groups[|groups| - 1]
  }

  /** `bars` are the summaries of the buckets of `ts`. */
  ghost predicate Batch(ts: seq<Tick>, groups: seq<seq<Tick>>, bars: seq<Bar>, seconds: int)
    requires seconds > 0
  {
    && Grouped(ts, groups, seconds) && |bars| == |groups|
    && forall g | 0 <= g < |groups| :: Summarizes(bars[g], groups[g], seconds)
  }

  /** All bars of one instrument: those completed, and the one still open. */
  function StreamBars(ts: seq<Tick>, seconds: int): (seq<Bar>, Option<Bar>)
    requires seconds > 0
  {
    if ts == [] then ([], None)
    else
      var (done, open) := StreamBars(ts[..|ts| - 1], seconds);
      var (bar, closed) := Streamed(open, ts[|ts| - 1], seconds);
      (if closed.Some? then done + [closed.value] else done, Some(bar))
  }

  function AllBars(ts: seq<Tick>, seconds: int): seq<Bar>
    requires seconds > 0
  {
    var (done, open) := StreamBars(ts, seconds);
    if open.Some? then done + [open.value] else done
  }

  lemma {:induction false} OpenedSummarizes(t: Tick, seconds: int)
    requires seconds > 0
    ensures Summarizes(Opened(t, seconds), [t], seconds)
  {
    assert [t][0] == t;
  }

  lemma {:induction false} ExtendedSummarizes(b: Bar, ts: seq<Tick>, t: Tick, seconds: int)
    requires seconds > 0 && Summarizes(b, ts, seconds)
    requires BucketStart(t.at, seconds) == BucketStart(ts[0].at, seconds)
    ensures Summarizes(Extended(b, t), ts + [t], seconds)
  {
    var all, e := ts + [t], Extended(b, t);
    assert all[|ts|] == t && forall i | 0 <= i < |ts| :: all[i] == ts[i];
    var h :| 0 <= h < |ts| && ts[h].price == b.high;
    var l :| 0 <= l < |ts| && ts[l].price == b.low;
    var v :| 0 <= v < |ts| && ts[v].volume == b.volume;
    assert all[if b.high < t.price then |ts| else h].price == e.high;
    assert all[if b.low < t.price then l else |ts|].price == e.low;
    assert all[if b.volume < t.volume then |ts| else v].volume == e.volume;
  }

  /** The buckets of `ts`, in order. */
  function Groups(ts: seq<Tick>, seconds: int): (groups: seq<seq<Tick>>)
    requires seconds > 0
    ensures forall g | 0 <= g < |groups| :: groups[g] != []
  {
    if ts == [] then []
    else
      var before, t := Groups(ts[..|ts| - 1], seconds), ts[|ts| - 1];
      if before == [] then [[t]] else Regrouped(before, t, seconds)
  }

  function Regrouped(groups: seq<seq<Tick>>, t: Tick, seconds: int): seq<seq<Tick>>
    requires seconds > 0 && groups != [] && groups[|groups| - 1] != []
  {
    var last := groups[|groups| - 1];
    if BucketStart(t.at, seconds) == BucketStart(last[0].at, seconds)
    then groups[..|groups| - 1] + [last + [t]] else groups + [[t]]
  }

  lemma {:induction false} BucketsOrdered(a: int, b: int, seconds: int)
    requires seconds > 0 && a <= b
    ensures BucketStart(a, seconds) == BucketStart(b, seconds) || BucketStart(a, seconds) + seconds <= BucketStart(b, seconds)
  {
    var x, y := a / seconds, b / seconds;
    Multiple(a, seconds);
    Multiple(b, seconds);
    if x < y {
      Apart(x, y, seconds);
    } else if y < x {
      Apart(y, x, seconds);
    }
  }

  lemma {:induction false} Multiple(at: int, seconds: int)
    requires seconds > 0
    ensures BucketStart(at, seconds) == seconds * (at / seconds)
  {
  }

  lemma {:induction false} Apart(x: int, y: int, seconds: int)
    requires seconds > 0 && x < y
    ensures seconds * x + seconds <= seconds * y
    decreases y - x
  {
    if x + 1 < y {
      Apart(x, y - 1, seconds);
      assert seconds * y == seconds * (y - 1) + seconds;
    } else {
      assert seconds * (x + 1) == seconds * x + seconds;
    }
  }

  lemma {:induction false} FlattenSnoc<T>(groups: seq<seq<T>>, g: seq<T>)
    ensures Flatten(groups + [g]) == Flatten(groups) + g
  {
    assert (groups + [g])[..|groups|] == groups;
  }

  lemma {:induction false} RegroupedFlattens(groups: seq<seq<Tick>>, t: Tick, seconds: int)
    requires seconds > 0 && groups != [] && groups[|groups| - 1] != []
    ensures Flatten(Regrouped(groups, t, seconds)) == Flatten(groups) + [t]
  {
    var front, last := groups[..|groups| - 1], groups[|groups| - 1];
    FlattenSnoc(groups, [t]);
    FlattenSnoc(front, last + [t]);
    assert Flatten(front) + (last + [t]) == Flatten(groups) + [t];
  }

  /** What the induction carries about the last group, the open bar and the last tick. */
  ghost predicate Current(ts: seq<Tick>, groups: seq<seq<Tick>>, bars: seq<Bar>, seconds: int)
    requires seconds > 0
  {
    && Batch(ts, groups, bars, seconds)
    && (ts != [] ==> groups != [] && groups[|groups| - 1] != [] && groups[|groups| - 1][|groups[|groups| - 1]| - 1] == ts[|ts| - 1])
  }

  lemma {:induction false} SummariesSnoc(
    groups: seq<seq<Tick>>, bars: seq<Bar>, g: seq<Tick>, b: Bar, seconds: int)
    requires seconds > 0 && |bars| == |groups| && Summarizes(b, g, seconds)
    requires forall i | 0 <= i < |groups| :: Summarizes(bars[i], groups[i], seconds)
    ensures forall i | 0 <= i <= |groups| :: Summarizes((bars + [b])[i], (groups + [g])[i], seconds)
  {
    forall i | 0 <= i <= |groups| ensures Summarizes((bars + [b])[i], (groups + [g])[i], seconds) {
      if i < |groups| { assert (bars + [b])[i] == bars[i] && (groups + [g])[i] == groups[i]; }
    }
  }

  lemma {:induction false} GroupedSnoc(ts: seq<Tick>, groups: seq<seq<Tick>>, t: Tick, seconds: int)
    requires seconds > 0 && Grouped(ts, groups, seconds)
    requires groups != [] ==> BucketStart(groups[|groups| - 1][0].at, seconds) < BucketStart(t.at, seconds)
    ensures Grouped(ts + [t], groups + [[t]], seconds)
  {
    var all := groups + [[t]];
    FlattenSnoc(groups, [t]);
    forall g | 0 <= g < |all| ensures SameBucket(all[g], seconds) {
      if g < |groups| { assert all[g] == groups[g]; }
    }
    forall g, h | 0 <= g < h < |all| ensures BucketStart(all[g][0].at, seconds) < BucketStart(all[h][0].at, seconds) {
      assert all[g] == groups[g];
    }
  }

  lemma {:induction false} NewGroup(ts: seq<Tick>, groups: seq<seq<Tick>>, bars: seq<Bar>, t: Tick, seconds: int)
    requires seconds > 0 && Current(ts, groups, bars, seconds)
    requires groups == [] ==> ts == []
    requires groups != [] ==> BucketStart(groups[|groups| - 1][0].at, seconds) < BucketStart(t.at, seconds)
    ensures Current(ts + [t], groups + [[t]], bars + [Opened(t, seconds)], seconds)
  {
    OpenedSummarizes(t, seconds);
    GroupedSnoc(ts, groups, t, seconds);
    SummariesSnoc(groups, bars, [t], Opened(t, seconds), seconds);
  }

  lemma {:induction false} SameGroup(ts: seq<Tick>, groups: seq<seq<Tick>>, bars: seq<Bar>, t: Tick, seconds: int)
    requires seconds > 0 && groups != [] && Current(ts, groups, bars, seconds)
    requires BucketStart(groups[|groups| - 1][0].at, seconds) == BucketStart(t.at, seconds)
    ensures Current(ts + [t], Regrouped(groups, t, seconds), bars[..|bars| - 1] + [Extended(bars[|bars| - 1], t)], seconds)
  {
    var last := groups[|groups| - 1];
    ExtendedSummarizes(bars[|bars| - 1], last, t, seconds);
    RegroupedFlattens(groups, t, seconds);
    assert (last + [t])[0] == last[0];
  }

  /** One more tick, not earlier than the last, on top of a batch with its open bar. */
  lemma {:induction false} NextTick(
    ts: seq<Tick>, groups: seq<seq<Tick>>, bars: seq<Bar>, t: Tick, seconds: int)
    requires seconds > 0 && Current(ts, groups, bars, seconds) && ts != [] && ts[|ts| - 1].at <= t.at
    ensures bars != [] && groups != [] && groups[|groups| - 1] != []
    ensures var (bar, closed) := Streamed(Some(bars[|bars| - 1]), t, seconds);
      Current(ts + [t], Regrouped(groups, t, seconds),
              if closed.Some? then bars + [bar] else bars[..|bars| - 1] + [bar], seconds)
      && (closed.Some? ==> closed.value == bars[|bars| - 1])
  {
    var last, open := groups[|groups| - 1], bars[|bars| - 1];
    assert Summarizes(open, last, seconds);
    assert BucketStart(last[|last| - 1].at, seconds) == BucketStart(last[0].at, seconds);
    BucketsOrdered(ts[|ts| - 1].at, t.at, seconds);
    if BucketStart(t.at, seconds) == BucketStart(last[0].at, seconds) {
      SameGroup(ts, groups, bars, t, seconds);
    } else {
      NewGroup(ts, groups, bars, t, seconds);
    }
  }

  /** For ticks in time order, completed plus flushed bars are exactly the summaries of the buckets. */
  lemma {:induction false} StreamIsBatch(ts: seq<Tick>, seconds: int)
    requires seconds > 0 && InOrder(ts)
    ensures Current(ts, Groups(ts, seconds), AllBars(ts, seconds), seconds)
    ensures StreamBars(ts, seconds).1.Some? <==> ts != []
  {
    if ts != [] {
      var front, t := ts[..|ts| - 1], ts[|ts| - 1];
      StreamIsBatch(front, seconds);
      var groups, bars := Groups(front, seconds), AllBars(front, seconds);
      assert ts == front + [t];
      if front == [] {
        NewGroup(front, groups, bars, t, seconds);
        assert groups + [[t]] == [[t]] && bars + [Opened(t, seconds)] == AllBars(ts, seconds);
      } else {
        NextTick(front, groups, bars, t, seconds);
        var (done, open) := StreamBars(front, seconds);
        assert bars == done + [open.value] && bars[..|bars| - 1] == done;
      }
    }
  }

  // ------------------------------------------------------------- many instruments

  datatype Aggregate = Aggregate(states: map<string, Bar>, emitted: seq<(string, Bar)>)

  function Next(a: Aggregate, q: Quote, seconds: int): Aggregate
    requires seconds > 0
  {
    if TickOf(q).None? then a
    else
      var (bar, closed) := Streamed(LookupBar(a.states, q.key), TickOf(q).value, seconds);
      Aggregate(a.states[q.key := bar], if closed.Some? then a.emitted + [(q.key, closed.value)] else a.emitted)
  }

  function Stream(qs: seq<Quote>, seconds: int): Aggregate
    requires seconds > 0
  {
    if qs == [] then Aggregate(map[], []) else Next(Stream(qs[..|qs| - 1], seconds), qs[|qs| - 1], seconds)
  }

  function TicksFor(qs: seq<Quote>, key: string): seq<Tick> {
    if qs == [] then []
    else
      var before, q := TicksFor(qs[..|qs| - 1], key), qs[|qs| - 1];
      if q.key == key && TickOf(q).Some? then before + [TickOf(q).value] else before
  }

  function BarsFor(emitted: seq<(string, Bar)>, key: string): seq<Bar> {
    if emitted == [] then []
    else
      var before, e := BarsFor(emitted[..|emitted| - 1], key), emitted[|emitted| - 1];
      if e.0 == key then before + [e.1] else before
  }

  /** Instruments do not disturb one another. */
  lemma {:induction false} InstrumentsAreIndependent(qs: seq<Quote>, key: string, seconds: int)
    requires seconds > 0
    ensures var a := Stream(qs, seconds);
      (BarsFor(a.emitted, key), LookupBar(a.states, key)) == StreamBars(TicksFor(qs, key), seconds)
  {
    if qs != [] {
      var front, q := qs[..|qs| - 1], qs[|qs| - 1];
      InstrumentsAreIndependent(front, key, seconds);
      var before, after := Stream(front, seconds), Stream(qs, seconds);
      if TickOf(q).Some? {
        var closed := Streamed(LookupBar(before.states, q.key), TickOf(q).value, seconds).1;
        if closed.Some? { assert after.emitted[..|before.emitted|] == before.emitted; }
        if q.key == key {
          var ts := TicksFor(front, key);
          assert (ts + [TickOf(q).value])[..|ts|] == ts;
        }
      }
    }
  }

  /** Emitted plus flushed bars of every instrument are the batch bars of its priced quotes. */
  lemma {:induction false} AggregatorIsBatch(qs: seq<Quote>, key: string, seconds: int)
    requires seconds > 0 && InOrder(TicksFor(qs, key))
    ensures var a := Stream(qs, seconds);
      Batch(TicksFor(qs, key), Groups(TicksFor(qs, key), seconds),
            BarsFor(a.emitted, key) + (if key in a.states then [a.states[key]] else []), seconds)
  {
    var ts := TicksFor(qs, key);
    InstrumentsAreIndependent(qs, key, seconds);
    StreamIsBatch(ts, seconds);
    var a := Stream(qs, seconds);
    assert BarsFor(a.emitted, key) + (if key in a.states then [a.states[key]] else []) == AllBars(ts, seconds);
  }
}
