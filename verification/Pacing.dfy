/**
 The sliding-window message limiter.  `TryAcquire` is the section a thread runs under the lock,
 so its contract holds for any interleaving of callers; `Acquire` is the waiting loop around it.
 */
module Pacing {
  import opened Wrappers

  datatype PacingError = LimitsNotPositive | BadMessageCount | InefficientOrders

  /** A monotonic clock whose sleeps last at least as long as asked. */
  class Clock {
    var time: real

    constructor ()
      ensures time == 0.0
    {
      time := 0.0;
    }

    method Now() returns (now: real)
      modifies this
      ensures now == time && old(time) <= time
    {
      var passed: real :| passed >= 0.0;
      time := time + passed;
      return time;
    }

    method Sleep(duration: real)
      modifies this
      ensures old(time) + duration <= time
    {
      var extra: real :| extra >= 0.0;
      time := time + duration + extra;
    }
  }

  // ------------------------------------------------------------- the specification

  predicate Sorted(ts: seq<real>) { forall i, j | 0 <= i < j < |ts| :: ts[i] <= ts[j] }

  /** A grant is a second or more after the one `max` places before it. */
  predicate Spaced(ts: seq<real>, max: nat) { forall i, j | 0 <= i < j < |ts| && i + max <= j :: ts[i] + 1.0 <= ts[j] }

  /** The grants younger than one second. */
  function Young(ts: seq<real>, now: real): (young: seq<real>) {
    if ts == [] then [] else if now - ts[0] >= 1.0 then Young(ts[1..], now) else ts
  }

  function Repeat(t: real, n: nat): (ts: seq<real>)
    ensures |ts| == n && forall i | 0 <= i < n :: ts[i] == t
  {
    seq(n, i => t)
  }

  /** Grants in the half-open second that starts at `t`. */
  function InSecond(ts: seq<real>, t: real): nat {
    if ts == [] then 0
    else InSecond(ts[..|ts| - 1], t) + if t <= ts[|ts| - 1] < t + 1.0 then 1 else 0
  }

  lemma {:induction false} BeforeSecond(ts: seq<real>, t: real)
    requires forall i | 0 <= i < |ts| :: ts[i] < t
    ensures InSecond(ts, t) == 0
  {
    if ts != [] { BeforeSecond(ts[..|ts| - 1], t); }
  }

  lemma {:induction false} AtMostTheRest(ts: seq<real>, t: real, k: nat)
    requires k <= |ts|
    ensures InSecond(ts, t) <= InSecond(ts[..k], t) + (|ts| - k)
  {
    if k < |ts| {
      assert ts[..|ts| - 1][..k] == ts[..k];
      AtMostTheRest(ts[..|ts| - 1], t, k);
    } else {
      assert ts[..k] == ts;
    }
  }

  /** No half-open second ever contains more than `max` grants. */
  lemma {:induction false} WindowNeverExceeded(granted: seq<real>, max: nat, t: real)
    requires Sorted(granted) && Spaced(granted, max) && max > 0
    ensures InSecond(granted, t) <= max
  {
    if granted != [] {
      var last := granted[|granted| - 1];
      if t <= last < t + 1.0 {
        var k := if |granted| > max then |granted| - max else 0;
        forall i | 0 <= i < k ensures granted[i] < t {
          assert granted[i] + 1.0 <= last;
        }
        BeforeSecond(granted[..k], t);
        AtMostTheRest(granted, t, k);
      } else {
        WindowNeverExceeded(granted[..|granted| - 1], max, t);
      }
    }
  }

  lemma {:induction false} YoungIsSuffix(ts: seq<real>, now: real) returns (k: nat)
    requires Sorted(ts)
    ensures k <= |ts| && Young(ts, now) == ts[k..]
    ensures forall i | 0 <= i < k :: ts[i] + 1.0 <= now
    ensures forall i | k <= i < |ts| :: now < ts[i] + 1.0
  {
    if ts == [] {
      k := 0;
    } else if now - ts[0] >= 1.0 {
      var j := YoungIsSuffix(ts[1..], now);
      k := j + 1;
    } else {
      k := 0;
    }
  }

  lemma {:induction false} YoungFrom(ts: seq<real>, k: nat, now: real)
    requires k <= |ts| && (forall i | 0 <= i < k :: ts[i] + 1.0 <= now) && (k < |ts| ==> now < ts[k] + 1.0)
    ensures Young(ts, now) == ts[k..]
  {
    if k > 0 {
      YoungFrom(ts[1..], k - 1, now);
      assert ts[1..][k - 1..] == ts[k..];
    } else {
      assert ts[0..] == ts;
    }
  }

  /** Granting while at most `max` grants are younger than a second keeps the spacing. */
  lemma {:induction false} GrantKeepsSpacing(granted: seq<real>, max: nat, now: real, messages: nat)
    requires Sorted(granted) && Spaced(granted, max) && forall i | 0 <= i < |granted| :: granted[i] <= now
    requires |Young(granted, now)| + messages <= max
    ensures Sorted(granted + Repeat(now, messages)) && Spaced(granted + Repeat(now, messages), max)
  {
    var k := YoungIsSuffix(granted, now);
    var all := granted + Repeat(now, messages);
    forall i, j | 0 <= i < j < |all| && i + max <= j ensures all[i] + 1.0 <= all[j] {
      if j >= |granted| { assert i < k; }
    }
  }

  /** At least `minimum` messages, and more than `ratio` of them for each execution. */
  predicate Outruns(messages: nat, executions: nat, ratio: real, minimum: int) {
    messages >= minimum && messages as real > ratio * (if executions > 1 then executions as real else 1.0)
  }

  lemma {:induction false} RatioExceeded(messages: real, executions: real, ratio: real)
    requires executions > 0.0
    ensures messages / executions > ratio <==> messages > ratio * executions
  {
    var quotient := messages / executions;
    assert messages == quotient * executions;
    if quotient > ratio {
      Scaled(quotient - ratio, executions);
    } else {
      Scaled(ratio - quotient, executions);
    }
  }

  lemma {:induction false} Scaled(a: real, b: real)
    requires b > 0.0 && a >= 0.0
    ensures a * b >= 0.0 && (a > 0.0 ==> a * b > 0.0)
  {
  }

  // -------------------------------------------------------------------- the limiter

  class OrderPacing {
    const max: nat
    const maxRatio: real
    const minimumMessages: int
    var times: seq<real>
    var orderMessages: nat
    var executions: nat
    ghost var granted: seq<real>
    ghost var dropped: nat
    ghost var seen: real

    /** The deque is what is left of the grants after dropping those a second old when last looked at. */
    ghost predicate Valid()
      reads this
    {
      && max > 0 && Sorted(granted) && Spaced(granted, max)
      && (forall i | 0 <= i < |granted| :: granted[i] <= seen)
      && dropped <= |granted| && times == granted[dropped..] && orderMessages == |granted|
      && forall i | 0 <= i < dropped :: granted[i] + 1.0 <= seen
    }

    constructor (max: nat, maxRatio: real, minimumMessages: int)
      requires max > 0 && maxRatio > 0.0
      ensures Valid() && granted == [] && executions == 0 && seen == 0.0
      ensures this.max == max && this.maxRatio == maxRatio && this.minimumMessages == minimumMessages
    {
      this.max, this.maxRatio, this.minimumMessages := max, maxRatio, minimumMessages;
      times, orderMessages, executions, granted, dropped, seen := [], 0, 0, [], 0, 0.0;
    }

    static method Create(max: int, maxRatio: real, minimumMessages: int) returns (r: Result<OrderPacing, PacingError>)
      ensures r.Ok? <==> max > 0 && maxRatio > 0.0
      ensures r.Ok? ==> fresh(r.value) && r.value.Valid() && r.value.granted == [] && r.value.max == max
      ensures r.Err? ==> r.error == LimitsNotPositive
    {
      if max <= 0 || maxRatio <= 0.0 { return Err(LimitsNotPositive); }
      var pacing := new OrderPacing(max, maxRatio, minimumMessages);
      return Ok(pacing);
    }

    /** Refuses, besides bad counts, exactly when what was ever granted outruns the executions. */
    method CheckNewOrdersAllowed(messages: int) returns (r: Result<(), PacingError>)
      requires Valid()
      ensures r == Err(BadMessageCount) <==> messages <= 0 || messages > max
      ensures r == Err(InefficientOrders) <==>
        0 < messages <= max && Outruns(|granted|, executions, maxRatio, minimumMessages)
      ensures r.Err? ==> r.error != LimitsNotPositive
    {
      if messages <= 0 || messages > max { return Err(BadMessageCount); }
      var atLeastOne := (if executions > 1 then executions else 1) as real;
      RatioExceeded(orderMessages as real, atLeastOne, maxRatio);
      if orderMessages >= minimumMessages && orderMessages as real / atLeastOne > maxRatio {
        return Err(InefficientOrders);
      }
      return Ok(());
    }

    method RecordExecution()
      requires Valid()
      modifies `executions
      ensures Valid() && executions == old(executions) + 1 && granted == old(granted)
    {
      executions := executions + 1;
    }

    /** Pop the grants that are a second old. */
    method DropExpired(now: real)
      requires Valid() && seen <= now
      modifies `times, `dropped
      ensures dropped <= |granted| && times == granted[dropped..] == Young(granted, now)
      ensures |times| <= |old(times)| && (|times| == |old(times)| ==> times == old(times))
      ensures forall i | 0 <= i < dropped :: granted[i] + 1.0 <= now
      ensures times != [] ==> now < times[0] + 1.0
    {
      while times != [] && now - times[0] >= 1.0
        invariant old(dropped) <= dropped <= |granted| && times == granted[dropped..]
        invariant forall i | 0 <= i < dropped :: granted[i] + 1.0 <= now
        decreases |times|
      {
        times := times[1..];
        dropped := dropped + 1;
      }
      YoungFrom(granted, dropped, now);
    }

    method Grant(messages: nat, now: real)
      requires Valid() && seen == now && |Young(granted, now)| + messages <= max
      modifies `times, `orderMessages, `granted
      ensures Valid() && granted == old(granted) + Repeat(now, messages) && orderMessages == old(orderMessages) + messages
    {
      GrantKeepsSpacing(granted, max, now, messages);
      times := times + Repeat(now, messages);
      granted := granted + Repeat(now, messages);
      orderMessages := orderMessages + messages;
      assert times == granted[dropped..];
    }

    /** One pass under the lock: grant, or say how long to wait for the oldest grant to expire. */
    method TryAcquire(messages: int, now: real) returns (wait: Option<real>)
      requires Valid() && seen <= now && 0 < messages <= max
      modifies `times, `orderMessages, `granted, `dropped, `seen
      ensures Valid() && seen == now
      ensures wait.None? <==> |Young(old(granted), now)| + messages <= max
      ensures wait.None? ==>
        granted == old(granted) + Repeat(now, messages) && orderMessages == old(orderMessages) + messages
      ensures wait.Some? ==>
        && granted == old(granted) && orderMessages == old(orderMessages)
        && times == Young(old(granted), now) && |times| <= |old(times)|
        && times != [] && now < times[0] + 1.0 <= now + wait.value
        && (|times| == |old(times)| ==> now < old(times)[0] + 1.0)
    {
      DropExpired(now);
      seen := now;
      if |times| + messages <= max {
        Grant(messages, now);
        return None;
      }
      var rest := 1.0 - (now - times[0]);
      return Some(if rest > 0.001 then rest else 0.001);
    }

    /** Waits for room; with honest sleeps each pass drops a grant, so the loop ends. */
    method Acquire(messages: int, clock: Clock) returns (r: Result<(), PacingError>)
      requires Valid() && seen <= clock.time
      modifies `times, `orderMessages, `granted, `dropped, `seen, clock
      ensures Valid() && seen <= clock.time
      ensures r.Err? <==> messages <= 0 || messages > max
      ensures r.Err? ==> granted == old(granted)
      ensures r.Ok? ==> granted == old(granted) + Repeat(seen, messages)
    {
      if messages <= 0 || messages > max { return Err(BadMessageCount); }
      while true
        invariant Valid() && seen <= clock.time && granted == old(granted)
        decreases |times| + if times != [] && clock.time < times[0] + 1.0 then 1 else 0
      {
        var now := clock.Now();
        var wait := TryAcquire(messages, now);
        if wait.None? { return Ok(()); }
        clock.Sleep(wait.value);
      }
    }
  }

  /** Any run of the limiter: no second ever sees more than `max` messages. */
  lemma {:induction false} LimitHolds(pacing: OrderPacing, t: real)
    requires pacing.Valid()
    ensures InSecond(pacing.granted, t) <= pacing.max
  {
    WindowNeverExceeded(pacing.granted, pacing.max, t);
  }

  // ---------------------------------------------------------------- order efficiency

  datatype Limits = Limits(max: nat, ratio: real, minimum: int)

  /**
   Calls that were allowed and have yet to be granted are `waiting`; one that loses its claim is
   dropped.  Cancellations and the like are exempt.
   */
  datatype Traffic = Traffic(granted: nat, exempt: nat, executions: nat, waiting: seq<nat>)

  datatype Move = Allow(messages: nat) | Send(call: nat) | Drop(call: nat) | SendExempt(messages: nat) | Execute

  ghost predicate Next(l: Limits, t: Traffic, m: Move, t': Traffic) {
    match m
    case Allow(n) =>
      && 0 < n <= l.max && !Outruns(t.granted, t.executions, l.ratio, l.minimum)
      && t' == t.(waiting := t.waiting + [n])
    case Send(k) =>
      && k < |t.waiting|
      && t' == t.(granted := t.granted + t.waiting[k], waiting := t.waiting[..k] + t.waiting[k + 1..])
    case Drop(k) => k < |t.waiting| && t' == t.(waiting := t.waiting[..k] + t.waiting[k + 1..])
    case SendExempt(n) => t' == t.(granted := t.granted + n, exempt := t.exempt + n)
    case Execute => t' == t.(executions := t.executions + 1)
  }

  ghost predicate Run(l: Limits, ts: seq<Traffic>, moves: seq<Move>) {
    && |ts| == |moves| + 1 && ts[0] == Traffic(0, 0, 0, [])
    && forall i | 0 <= i < |moves| :: Next(l, ts[i], moves[i], ts[i + 1])
  }

  function Total(calls: seq<nat>): nat {
    if calls == [] then 0 else Total(calls[..|calls| - 1]) + calls[|calls| - 1]
  }

  lemma {:induction false} TotalSnoc(calls: seq<nat>, n: nat)
    ensures Total(calls + [n]) == Total(calls) + n
  {
    assert (calls + [n])[..|calls|] == calls;
  }

  lemma {:induction false} TotalWithout(calls: seq<nat>, k: nat)
    requires k < |calls|
    ensures Total(calls) == Total(calls[..k] + calls[k + 1..]) + calls[k]
  {
    var last := |calls| - 1;
    var front := calls[..last];
    if k < last {
      TotalWithout(front, k);
      TotalSnoc(front[..k] + front[k + 1..], calls[last]);
      assert calls[..k] + calls[k + 1..] == (front[..k] + front[k + 1..]) + [calls[last]];
    } else {
      assert calls[..k] + calls[k + 1..] == front;
    }
  }

  lemma {:induction false} TotalAtMost(calls: seq<nat>, max: nat)
    requires forall i | 0 <= i < |calls| :: calls[i] <= max
    ensures Total(calls) <= |calls| * max
  {
    if calls != [] {
      TotalAtMost(calls[..|calls| - 1], max);
      assert |calls| * max == (|calls| - 1) * max + max;
    }
  }

  /** What the efficiency rule lets pass, exempt messages and calls in flight aside. */
  function Ceiling(l: Limits, executions: nat): real {
    var earned := l.ratio * (if executions > 1 then executions as real else 1.0);
    if earned < (l.minimum - 1) as real then (l.minimum - 1) as real else earned
  }

  lemma {:induction false} CeilingRises(l: Limits, executions: nat)
    requires l.ratio > 0.0
    ensures Ceiling(l, executions) <= Ceiling(l, executions + 1)
  {
    if executions > 0 {
      assert l.ratio * (executions + 1) as real == l.ratio * executions as real + l.ratio;
    }
  }

  lemma {:induction false} AllowedIsBelow(l: Limits, messages: nat, executions: nat)
    requires !Outruns(messages, executions, l.ratio, l.minimum)
    ensures messages as real <= Ceiling(l, executions)
  {
  }

  ghost predicate Inv(l: Limits, t: Traffic, room: nat) {
    && (forall i | 0 <= i < |t.waiting| :: t.waiting[i] <= l.max)
    && (t.granted + Total(t.waiting)) as real <= Ceiling(l, t.executions) + (t.exempt + room) as real
  }

  lemma {:induction false} StepKeeps(l: Limits, t: Traffic, m: Move, t': Traffic, room: nat)
    requires l.ratio > 0.0 && Inv(l, t, room) && Next(l, t, m, t') && Total(t'.waiting) <= room
    ensures Inv(l, t', room)
  {
    match m
    case Allow(n) => AllowedIsBelow(l, t.granted, t.executions);
    case Send(k) => TotalWithout(t.waiting, k);
    case Drop(k) => TotalWithout(t.waiting, k);
    case SendExempt(_) =>
    case Execute => CeilingRises(l, t.executions);
  }

  lemma {:induction false} CallsAreBounded(l: Limits, t: Traffic, m: Move, t': Traffic)
    requires Next(l, t, m, t') && forall i | 0 <= i < |t.waiting| :: t.waiting[i] <= l.max
    ensures forall i | 0 <= i < |t'.waiting| :: t'.waiting[i] <= l.max
  {
  }

  lemma {:induction false} InFlight(calls: seq<nat>, max: nat, callers: nat)
    requires |calls| <= callers && forall i | 0 <= i < |calls| :: calls[i] <= max
    ensures Total(calls) <= callers * max
  {
    TotalAtMost(calls, max);
    assert (callers - |calls|) * max >= 0;
  }

  /**
   With at most `callers` checked calls in flight, the messages of all non-exempt orders stay
   within the grace amount or the earned ratio, and one full call for each caller.
   */
  lemma {:induction false} EfficiencyHolds(l: Limits, ts: seq<Traffic>, moves: seq<Move>, callers: nat, j: nat)
    requires Run(l, ts, moves) && l.ratio > 0.0 && j < |ts| && forall i | 0 <= i <= j :: |ts[i].waiting| <= callers
    ensures Inv(l, ts[j], callers * l.max)
    ensures ts[j].granted as real <= Ceiling(l, ts[j].executions) + (ts[j].exempt + callers * l.max) as real
    decreases j
  {
    if j > 0 {
      EfficiencyHolds(l, ts, moves, callers, j - 1);
      assert Next(l, ts[j - 1], moves[j - 1], ts[j]);
      CallsAreBounded(l, ts[j - 1], moves[j - 1], ts[j]);
      InFlight(ts[j].waiting, l.max, callers);
      StepKeeps(l, ts[j - 1], moves[j - 1], ts[j], callers * l.max);
    } else {
      assert callers * l.max >= 0;
      assert Ceiling(l, 0) >= l.ratio;
    }
  }
}
