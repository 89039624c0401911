/**
 Runs of the strategy runtime.  A process can be started, stopped, paused and killed at any
 point, plugins and submissions can raise, and events keep arriving.  Every process carries the
 history its memory is the fold of; a checkpoint makes that history durable.
 */
module StrategyRuns {
  import opened Wrappers
  import opened EventFeed
  import opened StrategyRuntime
  import Placement

  /**
   One pass of the plugin.  An event or a bar is completed when the runtime has moved the cursor
   or the last bar past it; otherwise only the strategy state has seen it.
   */
  datatype Handled<E, B> =
    | EventPass(date: Option<int>, entry: Entry<E>, completed: bool)
    | BarPass(date: Option<int>, bar: Bar<B>, completed: bool)
    | Called(date: Option<int>, call: Call)

  /** Where the live process stands between two atomic steps. */
  datatype Phase<E, B, D> =
    | Ready
    | Submitting(bar: Bar<B>, out: seq<Submission<D>>, next: nat, raises: bool)
    | Polling(rest: seq<Entry<E>>)
    | Handling(rest: seq<Entry<E>>, raises: bool)

  /** `history` is what has gone into the memory `now`. */
  datatype Process<S, E, B, D> = Process(
    status: Status, date: Option<int>, now: Progress<S>, phase: Phase<E, B, D>, history: seq<Handled<E, B>>)

  /** One attempt at a bar: what had been handled when it began, and what it has sent. */
  datatype Attempt<E, B, D> = Attempt(date: Option<int>, bar: Bar<B>, after: seq<Handled<E, B>>, sent: seq<Submission<D>>)

  /** `log` is the history behind the durable checkpoint `saved`. */
  datatype World<S, E, B, D> = World(
    feed: seq<Entry<E>>, saved: Option<Progress<S>>, process: Option<Process<S, E, B, D>>,
    log: seq<Handled<E, B>>, attempts: seq<Attempt<E, B, D>>)

  datatype Action<E, B> =
    | Append(entry: Entry<E>)
    | New
    | Crash
    | Start(date: int)
    | BeginBar(bar: Bar<B>)
    | SubmitNext
    | FinishBar
    | FailBar
    | Fetch(limit: nat)
    | HandleEvent
    | SaveEvent
    | AbandonPoll
    | EndPoll
    | Heartbeat
    | Pause
    | Resume
    | CloseDay
    | Stop

  function Effect<S, E, B, D>(plugin: Plugin<S, E, B, D>, p: Progress<S>, h: Handled<E, B>): Progress<S> {
    match h
    case EventPass(date, e, completed) =>
      var q := p.(state := plugin.onEvent(date, p.state, e.item).after);
      if completed then q.(cursor := e.id) else q
    case BarPass(date, bar, completed) =>
      var q := p.(state := plugin.onBar(date, p.state, bar.inputs).after);
      if completed then q.(lastBar := Some(bar.end)) else q
    case Called(date, call) => p.(state := plugin.onCall(date, call, p.state))
  }

  /** The progress a history leads to. */
  function Replay<S, E, B, D>(plugin: Plugin<S, E, B, D>, log: seq<Handled<E, B>>): Progress<S> {
    if log == [] then Progress(0, None, plugin.init)
    else Effect(plugin, Replay(plugin, Front(log)), Last(log))
  }

  function Front<T>(s: seq<T>): seq<T>
    requires s != []
  {
    s[..|s| - 1]
  }

  function Last<T>(s: seq<T>): T
    requires s != []
  {
    s[|s| - 1]
  }

  predicate Undone<E, B>(h: Handled<E, B>) { !h.Called? && !h.completed }

  /** The events and bars completed by a history. */
  function EventsOf<E, B>(log: seq<Handled<E, B>>): seq<Entry<E>> {
    if log == [] then []
    else if Last(log).EventPass? && Last(log).completed then EventsOf(Front(log)) + [Last(log).entry]
    else EventsOf(Front(log))
  }

  function BarsOf<E, B>(log: seq<Handled<E, B>>): seq<Bar<B>> {
    if log == [] then []
    else if Last(log).BarPass? && Last(log).completed then BarsOf(Front(log)) + [Last(log).bar]
    else BarsOf(Front(log))
  }

  /** The history without the passes that were not completed. */
  function Completed<E, B>(log: seq<Handled<E, B>>): seq<Handled<E, B>> {
    if log == [] then []
    else if Undone(Last(log)) then Completed(Front(log))
    else Completed(Front(log)) + [Last(log)]
  }

  // ----------------------------------------------------------------------- the steps

  function Did<S, E, B, D>(plugin: Plugin<S, E, B, D>, p: Process<S, E, B, D>, h: Handled<E, B>): Process<S, E, B, D> {
    p.(now := Effect(plugin, p.now, h), history := p.history + [h])
  }

  function Live<S, E, B, D>(w: World<S, E, B, D>, p: Process<S, E, B, D>): World<S, E, B, D> { w.(process := Some(p)) }

  function Save<S, E, B, D>(w: World<S, E, B, D>, p: Process<S, E, B, D>): World<S, E, B, D> {
    w.(process := Some(p), saved := Some(p.now), log := p.history)
  }

  /** The pass in hand turns out completed. */
  function DoneBar<S, E, B, D>(p: Process<S, E, B, D>): Process<S, E, B, D>
    requires p.phase.Submitting? && p.history != []
  {
    p.(now := p.now.(lastBar := Some(p.phase.bar.end)), phase := Ready,
       history := Front(p.history) + [BarPass(p.date, p.phase.bar, true)])
  }

  function DoneEvent<S, E, B, D>(p: Process<S, E, B, D>): Process<S, E, B, D>
    requires p.phase.Handling? && p.phase.rest != [] && p.history != []
  {
    p.(now := p.now.(cursor := p.phase.rest[0].id), phase := Polling(p.phase.rest[1..]),
       history := Front(p.history) + [EventPass(p.date, p.phase.rest[0], true)])
  }

  function SentOneMore<E, B, D>(attempts: seq<Attempt<E, B, D>>, s: Submission<D>): seq<Attempt<E, B, D>>
    requires attempts != []
  {
    attempts[|attempts| - 1 := Last(attempts).(sent := Last(attempts).sent + [s])]
  }

  function Opening<S, E, B, D>(w: World<S, E, B, D>, p: Process<S, E, B, D>, date: int): Process<S, E, B, D> {
    if w.saved.Some? then Process(Running, Some(date), w.saved.value, Ready, w.log)
    else Process(Running, Some(date), p.now, Ready, p.history)
  }

  ghost predicate Next<S, E, B, D>(
    plugin: Plugin<S, E, B, D>, w: World<S, E, B, D>, a: Action<E, B>, w': World<S, E, B, D>)
  {
    match a
    case Append(e) => e.id > 0 && (forall i | 0 <= i < |w.feed| :: w.feed[i].id < e.id) && w' == w.(feed := w.feed + [e])
    case New => w.process.None? && w' == Live(w, Process(Created, None, Replay(plugin, []), Ready, []))
    case Crash => w' == w.(process := None)
    case _ => w.process.Some? && Proceeds(plugin, w, w.process.value, a, w')
  }

  ghost predicate Proceeds<S, E, B, D>(
    plugin: Plugin<S, E, B, D>, w: World<S, E, B, D>, p: Process<S, E, B, D>, a: Action<E, B>, w': World<S, E, B, D>)
  {
    if Sessional(a) then Manages(plugin, w, p, a, w')
    else if Barwise(a) then TakesBar(plugin, w, p, a, w')
    else Polls(plugin, w, p, a, w')
  }

  predicate Sessional<E, B>(a: Action<E, B>) {
    a.Start? || a.Heartbeat? || a.Pause? || a.Resume? || a.CloseDay? || a.Stop?
  }

  predicate Barwise<E, B>(a: Action<E, B>) { a.BeginBar? || a.SubmitNext? || a.FinishBar? || a.FailBar? }

  /** Session management, between two handlers. */
  ghost predicate Manages<S, E, B, D>(
    plugin: Plugin<S, E, B, D>, w: World<S, E, B, D>, p: Process<S, E, B, D>, a: Action<E, B>, w': World<S, E, B, D>)
    requires Sessional(a)
  {
    && p.phase.Ready?
    && match a
       case Start(date) =>
         p.status != Running && w' == Save(w, Did(plugin, Opening(w, p, date), Called(Some(date), Opened)))
       case Heartbeat => Active(p.status) && w' == Save(w, p)
       case Pause => p.status == Running && w' == Save(w, p.(status := Paused))
       case Resume => p.status == Paused && w' == Save(w, p.(status := Running))
       case CloseDay =>
         && Active(p.status)
         && w' == Save(w, Did(plugin, p, Called(p.date, DayEnded)).(status := Paused, date := None))
       case Stop => p.status != Stopped && w' == Save(w, Did(plugin, p, Called(p.date, Halted)).(status := Stopped))
  }

  /** One bar, cut at every submission; it fails when a submission or the plugin raises. */
  ghost predicate TakesBar<S, E, B, D>(
    plugin: Plugin<S, E, B, D>, w: World<S, E, B, D>, p: Process<S, E, B, D>, a: Action<E, B>, w': World<S, E, B, D>)
    requires Barwise(a)
  {
    match a
    case BeginBar(bar) =>
      && p.phase.Ready? && p.status == Running && Accepts(p.now, bar)
      && var out, pass := Submissions(plugin, p.date, p.now.state, bar), plugin.onBar(p.date, p.now.state, bar.inputs);
         w' == Live(w, Did(plugin, p, BarPass(p.date, bar, false)).(phase := Submitting(bar, out, 0, pass.raises)))
                 .(attempts := w.attempts + [Attempt(p.date, bar, p.history, [])])
    case SubmitNext =>
      && p.phase.Submitting? && p.phase.next < |p.phase.out| && w.attempts != []
      && w' == Live(w, p.(phase := p.phase.(next := p.phase.next + 1)))
                 .(attempts := SentOneMore(w.attempts, p.phase.out[p.phase.next]))
    case FinishBar =>
      && p.phase.Submitting? && p.phase.next == |p.phase.out| && !p.phase.raises && p.history != []
      && w' == Save(w, DoneBar(p))
    case FailBar =>
      && p.phase.Submitting? && (p.phase.next > 0 || (p.phase.out == [] && p.phase.raises))
      && w' == Save(w, p.(phase := Ready, status := Failed))
  }

  /** One page of order events, cut around every callback. */
  ghost predicate Polls<S, E, B, D>(
    plugin: Plugin<S, E, B, D>, w: World<S, E, B, D>, p: Process<S, E, B, D>, a: Action<E, B>, w': World<S, E, B, D>)
  {
    match a
    case Fetch(limit) =>
      && p.phase.Ready? && Active(p.status)
      && w' == Live(w, p.(phase := Polling(Take(Past(w.feed, p.now.cursor), limit))))
    case HandleEvent =>
      && p.phase.Polling? && p.phase.rest != []
      && var e := p.phase.rest[0];
         w' == Live(w, Did(plugin, p, EventPass(p.date, e, false))
                         .(phase := Handling(p.phase.rest, plugin.onEvent(p.date, p.now.state, e.item).raises)))
    case SaveEvent =>
      && p.phase.Handling? && !p.phase.raises && p.phase.rest != [] && p.history != []
      && w' == Save(w, DoneEvent(p))
    case AbandonPoll => p.phase.Handling? && p.phase.raises && w' == Live(w, p.(phase := Ready))
    case EndPoll => p.phase.Polling? && p.phase.rest == [] && w' == Save(w, p.(phase := Ready))
    case _ => false
  }

  // ------------------------------------------------------------------ the invariant

  ghost predicate FeedOk<E>(feed: seq<Entry<E>>) { Ascending(feed) && forall i | 0 <= i < |feed| :: feed[i].id > 0 }

  /** A history completes exactly the events up to its cursor, each once, and ever later bars. */
  ghost predicate Faithful<S, E, B, D>(plugin: Plugin<S, E, B, D>, feed: seq<Entry<E>>, log: seq<Handled<E, B>>) {
    var p := Replay(plugin, log);
    && p.cursor >= 0 && feed == EventsOf(log) + Past(feed, p.cursor)
    && BarsAscend(BarsOf(log), p.lastBar)
  }

  predicate BarsAscend<B>(bars: seq<Bar<B>>, last: Option<int>) {
    && (forall i, j | 0 <= i < j < |bars| :: bars[i].end < bars[j].end)
    && last == if bars == [] then None else Some(Last(bars).end)
  }

  /** The process's history goes on from the durable one, by passes not completed. */
  ghost predicate GoesOn<S, E, B, D>(w: World<S, E, B, D>, p: Process<S, E, B, D>) {
    if p.status == Created then p.history == []
    else
      && w.saved.Some? && w.log <= p.history
      && forall k | |w.log| <= k < |p.history| :: Undone(p.history[k])
  }

  /** What is in hand is the last entry of the history. */
  ghost predicate InHandler<S, E, B, D>(
    plugin: Plugin<S, E, B, D>, feed: seq<Entry<E>>, saved: nat, p: Process<S, E, B, D>)
  {
    match p.phase
    case Ready => true
    case Submitting(bar, out, next, raises) =>
      && |p.history| > saved && Last(p.history) == BarPass(p.date, bar, false) && p.status == Running && next <= |out|
      && var before := Replay(plugin, Front(p.history));
         && Accepts(before, bar) && out == Submissions(plugin, p.date, before.state, bar)
         && raises == plugin.onBar(p.date, before.state, bar.inputs).raises
    case Polling(rest) => Active(p.status) && rest <= Past(feed, p.now.cursor)
    case Handling(rest, raises) =>
      && Active(p.status) && rest != [] && rest <= Past(feed, p.now.cursor)
      && |p.history| > saved && Last(p.history) == EventPass(p.date, rest[0], false)
      && raises == plugin.onEvent(p.date, Replay(plugin, Front(p.history)).state, rest[0].item).raises
  }

  ghost predicate ProcessOk<S, E, B, D>(plugin: Plugin<S, E, B, D>, w: World<S, E, B, D>, p: Process<S, E, B, D>) {
    && p.now == Replay(plugin, p.history) && Faithful(plugin, w.feed, p.history)
    && GoesOn(w, p) && (p.status == Created ==> p.phase.Ready?)
    && InHandler(plugin, w.feed, |w.log|, p)
  }

  /** An attempt has sent a prefix of the orders its history and bar lead to. */
  ghost predicate AttemptOk<S, E, B, D>(plugin: Plugin<S, E, B, D>, t: Attempt<E, B, D>) {
    t.sent <= Submissions(plugin, t.date, Replay(plugin, t.after).state, t.bar)
  }

  ghost predicate AttemptsOk<S, E, B, D>(plugin: Plugin<S, E, B, D>, w: World<S, E, B, D>) {
    && (forall i | 0 <= i < |w.attempts| :: AttemptOk(plugin, w.attempts[i]))
    && (w.process.Some? && w.process.value.phase.Submitting? ==>
          && w.attempts != [] && w.process.value.history != []
          && var t, p := Last(w.attempts), w.process.value;
             t.date == p.date && t.bar == p.phase.bar && t.after == Front(p.history)
             && p.phase.next <= |p.phase.out| && t.sent == p.phase.out[..p.phase.next])
  }

  ghost predicate Durable<S, E, B, D>(plugin: Plugin<S, E, B, D>, w: World<S, E, B, D>) {
    && FeedOk(w.feed) && Faithful(plugin, w.feed, w.log)
    && if w.saved.Some? then w.saved.value == Replay(plugin, w.log) else w.log == []
  }

  ghost predicate Inv<S, E, B, D>(plugin: Plugin<S, E, B, D>, w: World<S, E, B, D>) {
    && Durable(plugin, w) && (w.process.Some? ==> ProcessOk(plugin, w, w.process.value)) && AttemptsOk(plugin, w)
  }

  lemma {:induction false} Snoc<S, E, B, D>(plugin: Plugin<S, E, B, D>, log: seq<Handled<E, B>>, h: Handled<E, B>)
    ensures Front(log + [h]) == log && Last(log + [h]) == h
    ensures Replay(plugin, log + [h]) == Effect(plugin, Replay(plugin, log), h)
    ensures EventsOf(log + [h]) == if h.EventPass? && h.completed then EventsOf(log) + [h.entry] else EventsOf(log)
    ensures BarsOf(log + [h]) == if h.BarPass? && h.completed then BarsOf(log) + [h.bar] else BarsOf(log)
    ensures Completed(log + [h]) == if Undone(h) then Completed(log) else Completed(log) + [h]
  {
    assert (log + [h])[..|log|] == log;
  }

  lemma {:induction false} PastAll<E>(feed: seq<Entry<E>>)
    requires forall i | 0 <= i < |feed| :: feed[i].id > 0
    ensures Past(feed, 0) == feed
  {
    if feed != [] {
      PastAll(Front(feed));
      assert feed == Front(feed) + [Last(feed)];
    }
  }

  lemma {:induction false} NothingHandled<S, E, B, D>(plugin: Plugin<S, E, B, D>, feed: seq<Entry<E>>)
    requires FeedOk(feed)
    ensures Faithful(plugin, feed, [])
  {
    PastAll(feed);
  }

  /** A pass that is not completed, or a callback, moves neither cursor nor last bar. */
  lemma {:induction false} StateOnly<S, E, B, D>(
    plugin: Plugin<S, E, B, D>, feed: seq<Entry<E>>, log: seq<Handled<E, B>>, h: Handled<E, B>)
    requires Faithful(plugin, feed, log) && (h.Called? || Undone(h))
    ensures Faithful(plugin, feed, log + [h])
  {
    Snoc(plugin, log, h);
  }

  lemma {:induction false} EventCompleted<S, E, B, D>(
    plugin: Plugin<S, E, B, D>, feed: seq<Entry<E>>, log: seq<Handled<E, B>>, date: Option<int>, e: Entry<E>)
    requires FeedOk(feed) && Faithful(plugin, feed, log)
    requires var unread := Past(feed, Replay(plugin, log).cursor); unread != [] && unread[0] == e
    ensures Faithful(plugin, feed, log + [EventPass(date, e, true)])
    ensures Past(feed, e.id) == Past(feed, Replay(plugin, log).cursor)[1..]
  {
    Snoc(plugin, log, EventPass(date, e, true));
    ReadHead(feed, EventsOf(log), Replay(plugin, log).cursor);
  }

  lemma {:induction false} ReadHead<E>(feed: seq<Entry<E>>, handled: seq<Entry<E>>, cursor: int)
    requires Ascending(feed) && feed == handled + Past(feed, cursor) && Past(feed, cursor) != []
    ensures var e := Past(feed, cursor)[0];
      e.id > cursor && Past(feed, e.id) == Past(feed, cursor)[1..] && feed == (handled + [e]) + Past(feed, e.id)
  {
    PastAdvance(feed, cursor, 1);
    PastMembers(feed, cursor);
    var unread := Past(feed, cursor);
    assert unread == [unread[0]] + unread[1..];
  }

  lemma {:induction false} BarCompleted<S, E, B, D>(
    plugin: Plugin<S, E, B, D>, feed: seq<Entry<E>>, log: seq<Handled<E, B>>, date: Option<int>, bar: Bar<B>)
    requires Faithful(plugin, feed, log) && Accepts(Replay(plugin, log), bar)
    ensures Faithful(plugin, feed, log + [BarPass(date, bar, true)])
  {
    Snoc(plugin, log, BarPass(date, bar, true));
    LaterBar(BarsOf(log), Replay(plugin, log).lastBar, bar);
  }

  lemma {:induction false} LaterBar<B>(bars: seq<Bar<B>>, last: Option<int>, bar: Bar<B>)
    requires BarsAscend(bars, last) && (last.None? || bar.end > last.value)
    ensures BarsAscend(bars + [bar], Some(bar.end))
  {
  }

  /** The cursor is 0 or the id of an event that was fed, so a new event is past it. */
  lemma {:induction false} AppendedIsUnread<S, E, B, D>(
    plugin: Plugin<S, E, B, D>, feed: seq<Entry<E>>, log: seq<Handled<E, B>>, e: Entry<E>)
    requires Faithful(plugin, feed, log) && e.id > 0 && forall i | 0 <= i < |feed| :: feed[i].id < e.id
    ensures Faithful(plugin, feed + [e], log)
    ensures var cursor := Replay(plugin, log).cursor; Past(feed + [e], cursor) == Past(feed, cursor) + [e]
  {
    var cursor, es := Replay(plugin, log).cursor, EventsOf(log);
    LastEvent(plugin, log);
    PastSnoc(feed, e, cursor);
    if es != [] { assert feed[|es| - 1] == es[|es| - 1]; }
    assert feed + [e] == es + (Past(feed, cursor) + [e]);
  }

  lemma {:induction false} LastEvent<S, E, B, D>(plugin: Plugin<S, E, B, D>, log: seq<Handled<E, B>>)
    ensures var es := EventsOf(log); Replay(plugin, log).cursor == if es == [] then 0 else es[|es| - 1].id
  {
    if log != [] { LastEvent(plugin, Front(log)); }
  }

  // ------------------------------------------------------------------- every step

  lemma {:induction false} AppendKeeps<S, E, B, D>(
    plugin: Plugin<S, E, B, D>, w: World<S, E, B, D>, a: Action<E, B>, w': World<S, E, B, D>)
    requires a.Append? && Inv(plugin, w) && Next(plugin, w, a, w')
    ensures Inv(plugin, w')
  {
    AppendedIsUnread(plugin, w.feed, w.log, a.entry);
    if w.process.Some? { AppendedIsUnread(plugin, w.feed, w.process.value.history, a.entry); }
  }

  /** A checkpoint between two handlers is in order if the process is. */
  lemma {:induction false} SaveKeeps<S, E, B, D>(
    plugin: Plugin<S, E, B, D>, w: World<S, E, B, D>, p: Process<S, E, B, D>)
    requires FeedOk(w.feed) && Faithful(plugin, w.feed, p.history) && p.now == Replay(plugin, p.history)
    requires p.status != Created && (forall i | 0 <= i < |w.attempts| :: AttemptOk(plugin, w.attempts[i]))
    requires p.phase.Ready? || (p.phase.Polling? && Active(p.status) && p.phase.rest <= Past(w.feed, p.now.cursor))
    ensures Inv(plugin, Save(w, p))
  {
  }

  lemma {:induction false} DidCall<S, E, B, D>(
    plugin: Plugin<S, E, B, D>, feed: seq<Entry<E>>, p: Process<S, E, B, D>, h: Handled<E, B>)
    requires p.now == Replay(plugin, p.history) && Faithful(plugin, feed, p.history) && (h.Called? || Undone(h))
    ensures var q := Did(plugin, p, h);
      q.now == Replay(plugin, q.history) && Faithful(plugin, feed, q.history)
  {
    Snoc(plugin, p.history, h);
    StateOnly(plugin, feed, p.history, h);
  }

  lemma {:induction false} SessionKeeps<S, E, B, D>(
    plugin: Plugin<S, E, B, D>, w: World<S, E, B, D>, a: Action<E, B>, w': World<S, E, B, D>)
    requires Sessional(a) && Inv(plugin, w) && Next(plugin, w, a, w')
    ensures Inv(plugin, w')
  {
    var p := w.process.value;
    if a.Start? {
      DidCall(plugin, w.feed, Opening(w, p, a.date), Called(Some(a.date), Opened));
    } else if a.CloseDay? {
      DidCall(plugin, w.feed, p, Called(p.date, DayEnded));
    } else if a.Stop? {
      DidCall(plugin, w.feed, p, Called(p.date, Halted));
    }
    SaveKeeps(plugin, w, w'.process.value);
  }

  /** A process begins a pass that is not completed yet. */
  lemma {:induction false} PassBegins<S, E, B, D>(
    plugin: Plugin<S, E, B, D>, w: World<S, E, B, D>, p: Process<S, E, B, D>, h: Handled<E, B>, phase: Phase<E, B, D>)
    requires ProcessOk(plugin, w, p) && p.status != Created && Undone(h)
    requires InHandler(plugin, w.feed, |w.log|, Did(plugin, p, h).(phase := phase))
    ensures ProcessOk(plugin, w, Did(plugin, p, h).(phase := phase))
  {
    DidCall(plugin, w.feed, p, h);
  }

  lemma {:induction false} BarInHand<S, E, B, D>(
    plugin: Plugin<S, E, B, D>, feed: seq<Entry<E>>, saved: nat, p: Process<S, E, B, D>, bar: Bar<B>)
    requires p.now == Replay(plugin, p.history) && saved <= |p.history| && p.status == Running && Accepts(p.now, bar)
    ensures var out, pass := Submissions(plugin, p.date, p.now.state, bar), plugin.onBar(p.date, p.now.state, bar.inputs);
      InHandler(plugin, feed, saved,
                Did(plugin, p, BarPass(p.date, bar, false)).(phase := Submitting(bar, out, 0, pass.raises)))
  {
    Snoc(plugin, p.history, BarPass(p.date, bar, false));
  }

  lemma {:induction false} BeginKeeps<S, E, B, D>(
    plugin: Plugin<S, E, B, D>, w: World<S, E, B, D>, a: Action<E, B>, w': World<S, E, B, D>)
    requires a.BeginBar? && Inv(plugin, w) && Next(plugin, w, a, w')
    ensures Inv(plugin, w')
  {
    var p := w.process.value;
    BarInHand(plugin, w.feed, |w.log|, p, a.bar);
    PassBegins(plugin, w, p, BarPass(p.date, a.bar, false), w'.process.value.phase);
    Snoc(plugin, p.history, BarPass(p.date, a.bar, false));
    AttemptBegins(plugin, w, Attempt(p.date, a.bar, p.history, []), w'.process.value);
  }

  lemma {:induction false} AttemptBegins<S, E, B, D>(
    plugin: Plugin<S, E, B, D>, w: World<S, E, B, D>, t: Attempt<E, B, D>, p: Process<S, E, B, D>)
    requires AttemptsOk(plugin, w) && p.phase.Submitting? && p.phase.next == 0 && p.history != [] && t.sent == []
    requires t.date == p.date && t.bar == p.phase.bar && t.after == Front(p.history)
    ensures AttemptsOk(plugin, Live(w, p).(attempts := w.attempts + [t]))
  {
  }

  lemma {:induction false} SubmitKeeps<S, E, B, D>(
    plugin: Plugin<S, E, B, D>, w: World<S, E, B, D>, a: Action<E, B>, w': World<S, E, B, D>)
    requires a.SubmitNext? && Inv(plugin, w) && Next(plugin, w, a, w')
    ensures Inv(plugin, w')
  {
    var phase := w.process.value.phase;
    assert phase.out[..phase.next + 1] == phase.out[..phase.next] + [phase.out[phase.next]];
  }

  lemma {:induction false} BarKeeps<S, E, B, D>(
    plugin: Plugin<S, E, B, D>, w: World<S, E, B, D>, a: Action<E, B>, w': World<S, E, B, D>)
    requires Barwise(a) && Inv(plugin, w) && Next(plugin, w, a, w')
    ensures Inv(plugin, w')
  {
    if a.BeginBar? {
      BeginKeeps(plugin, w, a, w');
    } else if a.SubmitNext? {
      SubmitKeeps(plugin, w, a, w');
    } else if a.FailBar? {
      SaveKeeps(plugin, w, w'.process.value);
    } else {
      FinishKeeps(plugin, w, w.process.value);
    }
  }

  lemma {:induction false} FrontBack<S, E, B, D>(
    plugin: Plugin<S, E, B, D>, feed: seq<Entry<E>>, log: seq<Handled<E, B>>)
    requires log != [] && Undone(Last(log)) && Faithful(plugin, feed, log)
    ensures Faithful(plugin, feed, Front(log)) && Replay(plugin, log).cursor == Replay(plugin, Front(log)).cursor
  {
  }

  lemma {:induction false} FinishKeeps<S, E, B, D>(
    plugin: Plugin<S, E, B, D>, w: World<S, E, B, D>, p: Process<S, E, B, D>)
    requires Inv(plugin, w) && w.process == Some(p) && p.phase.Submitting?
    ensures Inv(plugin, Save(w, DoneBar(p)))
  {
    FrontBack(plugin, w.feed, p.history);
    BarCompleted(plugin, w.feed, Front(p.history), p.date, p.phase.bar);
    Snoc(plugin, Front(p.history), BarPass(p.date, p.phase.bar, true));
    SaveKeeps(plugin, w, DoneBar(p));
  }

  lemma {:induction false} EventKeeps<S, E, B, D>(
    plugin: Plugin<S, E, B, D>, w: World<S, E, B, D>, p: Process<S, E, B, D>)
    requires Inv(plugin, w) && w.process == Some(p) && p.phase.Handling?
    ensures Inv(plugin, Save(w, DoneEvent(p)))
  {
    var e := p.phase.rest[0];
    FrontBack(plugin, w.feed, p.history);
    EventCompleted(plugin, w.feed, Front(p.history), p.date, e);
    Snoc(plugin, Front(p.history), EventPass(p.date, e, true));
    SaveKeeps(plugin, w, DoneEvent(p));
  }

  lemma {:induction false} EventInHand<S, E, B, D>(
    plugin: Plugin<S, E, B, D>, feed: seq<Entry<E>>, saved: nat, p: Process<S, E, B, D>)
    requires p.now == Replay(plugin, p.history) && saved <= |p.history| && Active(p.status)
    requires p.phase.Polling? && p.phase.rest != [] && p.phase.rest <= Past(feed, p.now.cursor)
    ensures var e := p.phase.rest[0]; var raises := plugin.onEvent(p.date, p.now.state, e.item).raises;
      InHandler(plugin, feed, saved,
                Did(plugin, p, EventPass(p.date, e, false)).(phase := Handling(p.phase.rest, raises)))
  {
    Snoc(plugin, p.history, EventPass(p.date, p.phase.rest[0], false));
  }

  lemma {:induction false} HandleKeeps<S, E, B, D>(
    plugin: Plugin<S, E, B, D>, w: World<S, E, B, D>, a: Action<E, B>, w': World<S, E, B, D>)
    requires a.HandleEvent? && Inv(plugin, w) && Next(plugin, w, a, w')
    ensures Inv(plugin, w')
  {
    var p := w.process.value;
    EventInHand(plugin, w.feed, |w.log|, p);
    PassBegins(plugin, w, p, EventPass(p.date, p.phase.rest[0], false), w'.process.value.phase);
  }

  lemma {:induction false} PhaseChange<S, E, B, D>(
    plugin: Plugin<S, E, B, D>, w: World<S, E, B, D>, p: Process<S, E, B, D>, phase: Phase<E, B, D>)
    requires Inv(plugin, w) && w.process == Some(p) && !phase.Submitting? && (phase.Ready? || p.status != Created)
    requires InHandler(plugin, w.feed, |w.log|, p.(phase := phase))
    ensures Inv(plugin, Live(w, p.(phase := phase)))
  {
  }

  lemma {:induction false} FetchKeeps<S, E, B, D>(
    plugin: Plugin<S, E, B, D>, w: World<S, E, B, D>, a: Action<E, B>, w': World<S, E, B, D>)
    requires (a.Fetch? || a.AbandonPoll?) && Inv(plugin, w) && w.process.Some? && Polls(plugin, w, w.process.value, a, w')
    ensures Inv(plugin, w')
  {
    PhaseChange(plugin, w, w.process.value, w'.process.value.phase);
  }

  lemma {:induction false} PollKeeps<S, E, B, D>(
    plugin: Plugin<S, E, B, D>, w: World<S, E, B, D>, a: Action<E, B>, w': World<S, E, B, D>)
    requires (a.Fetch? || a.HandleEvent? || a.SaveEvent? || a.AbandonPoll? || a.EndPoll?)
    requires Inv(plugin, w) && Next(plugin, w, a, w')
    ensures Inv(plugin, w')
  {
    if a.HandleEvent? {
      HandleKeeps(plugin, w, a, w');
    } else if a.SaveEvent? {
      EventKeeps(plugin, w, w.process.value);
    } else if a.EndPoll? {
      SaveKeeps(plugin, w, w'.process.value);
    } else {
      FetchKeeps(plugin, w, a, w');
    }
  }

  lemma {:induction false} ProcessKeeps<S, E, B, D>(
    plugin: Plugin<S, E, B, D>, w: World<S, E, B, D>, a: Action<E, B>, w': World<S, E, B, D>)
    requires !a.Append? && !a.New? && !a.Crash? && Inv(plugin, w) && Next(plugin, w, a, w')
    ensures Inv(plugin, w')
  {
    if Sessional(a) {
      SessionKeeps(plugin, w, a, w');
    } else if Barwise(a) {
      BarKeeps(plugin, w, a, w');
    } else {
      PollKeeps(plugin, w, a, w');
    }
  }

  lemma {:induction false} LifeKeeps<S, E, B, D>(
    plugin: Plugin<S, E, B, D>, w: World<S, E, B, D>, a: Action<E, B>, w': World<S, E, B, D>)
    requires (a.New? || a.Crash?) && Inv(plugin, w) && Next(plugin, w, a, w')
    ensures Inv(plugin, w')
  {
    NothingHandled(plugin, w.feed);
  }

  lemma {:induction false} StepKeeps<S, E, B, D>(
    plugin: Plugin<S, E, B, D>, w: World<S, E, B, D>, a: Action<E, B>, w': World<S, E, B, D>)
    requires Inv(plugin, w) && Next(plugin, w, a, w')
    ensures Inv(plugin, w')
  {
    if a.Append? {
      AppendKeeps(plugin, w, a, w');
    } else if a.New? || a.Crash? {
      LifeKeeps(plugin, w, a, w');
    } else {
      ProcessKeeps(plugin, w, a, w');
    }
  }

  ghost predicate Run<S, E, B, D>(plugin: Plugin<S, E, B, D>, ws: seq<World<S, E, B, D>>, actions: seq<Action<E, B>>) {
    && |ws| == |actions| + 1
    && ws[0] == World.World([], None, None, [], [])
    && forall i | 0 <= i < |actions| :: Next(plugin, ws[i], actions[i], ws[i + 1])
  }

  lemma {:induction false} RunKeeps<S, E, B, D>(
    plugin: Plugin<S, E, B, D>, ws: seq<World<S, E, B, D>>, actions: seq<Action<E, B>>, j: nat)
    requires Run(plugin, ws, actions) && j < |ws|
    ensures Inv(plugin, ws[j])
    decreases j
  {
    if j > 0 {
      RunKeeps(plugin, ws, actions, j - 1);
      assert Next(plugin, ws[j - 1], actions[j - 1], ws[j]);
      StepKeeps(plugin, ws[j - 1], actions[j - 1], ws[j]);
    }
  }

  // ------------------------------------------------------------------ the theorems

  /**
   Whatever mix of bars, polls, failures, crashes and restarts: checkpoint and memory are the
   folds of their histories; the durable history completes exactly the events up to the cursor,
   in feed order, and bars with strictly increasing ends; and what a started process remembers
   beyond its checkpoint is passes it has not completed.
   */
  lemma {:induction false} CheckpointIsFoldOfHistory<S, E, B, D>(
    plugin: Plugin<S, E, B, D>, ws: seq<World<S, E, B, D>>, actions: seq<Action<E, B>>, j: nat)
    requires Run(plugin, ws, actions) && j < |ws|
    ensures ws[j].saved.Some? ==> ws[j].saved.value == Replay(plugin, ws[j].log)
    ensures ws[j].process.Some? ==> ws[j].process.value.now == Replay(plugin, ws[j].process.value.history)
    ensures ws[j].process.Some? ==> GoesOn(ws[j], ws[j].process.value)
    ensures Ascending(EventsOf(ws[j].log)) && EventsOf(ws[j].log) <= ws[j].feed
    ensures forall k | 0 <= k < |ws[j].feed| ::
      ws[j].feed[k] in EventsOf(ws[j].log) <==> ws[j].feed[k].id <= Replay(plugin, ws[j].log).cursor
    ensures BarsAscend(BarsOf(ws[j].log), Replay(plugin, ws[j].log).lastBar)
  {
    RunKeeps(plugin, ws, actions, j);
    HandledIsRead(ws[j].feed, EventsOf(ws[j].log), Replay(plugin, ws[j].log).cursor);
  }

  lemma {:induction false} HandledIsRead<E>(feed: seq<Entry<E>>, handled: seq<Entry<E>>, cursor: int)
    requires Ascending(feed) && feed == handled + Past(feed, cursor)
    ensures Ascending(handled) && handled <= feed
    ensures forall k | 0 <= k < |feed| :: feed[k] in handled <==> feed[k].id <= cursor
  {
    var unread := Past(feed, cursor);
    PastMembers(feed, cursor);
    assert forall k | 0 <= k < |handled| :: feed[k] == handled[k];
    assert forall j | 0 <= j < |unread| :: feed[|handled| + j] == unread[j];
    assert forall k, j | 0 <= k < |handled| && 0 <= j < |unread| :: handled[k] != unread[j];
    assert forall k | 0 <= k < |feed| && feed[k].id > cursor :: feed[k] in unread;
    assert forall k | |handled| <= k < |feed| :: feed[k] == unread[k - |handled|];
  }

  // ----------------------------------------------------- what forgets the history

  /** A stop of a process that was never started. */
  predicate EarlyStop<S, E, B, D>(w: World<S, E, B, D>, a: Action<E, B>) {
    a.Stop? && w.process.Some? && w.process.value.status == Created
  }

  lemma {:induction false} ProcessGrows<S, E, B, D>(
    plugin: Plugin<S, E, B, D>, w: World<S, E, B, D>, p: Process<S, E, B, D>, a: Action<E, B>, w': World<S, E, B, D>)
    requires ProcessOk(plugin, w, p) && w.process == Some(p) && Proceeds(plugin, w, p, a, w')
    requires w.saved.None? ==> w.log == []
    ensures if EarlyStop(w, a) then |w'.log| == 1 && w'.log[0].Called? else w.log <= w'.log
  {
    if a.FinishBar? || a.SaveEvent? { assert w.log <= Front(p.history); }
  }

  lemma {:induction false} RunStepGrows<S, E, B, D>(
    plugin: Plugin<S, E, B, D>, ws: seq<World<S, E, B, D>>, actions: seq<Action<E, B>>, j: nat)
    requires Run(plugin, ws, actions) && j < |actions|
    ensures if EarlyStop(ws[j], actions[j]) then |ws[j + 1].log| == 1 && ws[j + 1].log[0].Called?
            else ws[j].log <= ws[j + 1].log
  {
    RunKeeps(plugin, ws, actions, j);
    var w, a := ws[j], actions[j];
    assert Next(plugin, w, a, ws[j + 1]);
    if !a.Append? && !a.New? && !a.Crash? { ProcessGrows(plugin, w, w.process.value, a, ws[j + 1]); }
  }

  lemma {:induction false} CompletedGrows<E, B>(log: seq<Handled<E, B>>, longer: seq<Handled<E, B>>)
    requires log <= longer
    ensures EventsOf(log) <= EventsOf(longer) && BarsOf(log) <= BarsOf(longer)
    decreases |longer|
  {
    if |log| < |longer| { CompletedGrows(log, Front(longer)); } else { assert log == longer; }
  }

  /** Completed work is forgotten if and only if a process that never started is stopped. */
  lemma {:induction false} ForgetsIff<S, E, B, D>(
    plugin: Plugin<S, E, B, D>, ws: seq<World<S, E, B, D>>, actions: seq<Action<E, B>>, j: nat)
    requires Run(plugin, ws, actions) && j < |actions|
    ensures EventsOf(ws[j].log) <= EventsOf(ws[j + 1].log) && BarsOf(ws[j].log) <= BarsOf(ws[j + 1].log)
      <==> !EarlyStop(ws[j], actions[j]) || (EventsOf(ws[j].log) == [] && BarsOf(ws[j].log) == [])
  {
    RunStepGrows(plugin, ws, actions, j);
    if EarlyStop(ws[j], actions[j]) {
      NothingCompleted(ws[j + 1].log);
    } else {
      CompletedGrows(ws[j].log, ws[j + 1].log);
    }
  }

  lemma {:induction false} NothingCompleted<E, B>(log: seq<Handled<E, B>>)
    requires |log| == 1 && log[0].Called?
    ensures EventsOf(log) == [] && BarsOf(log) == []
  {
  }

  lemma {:induction false} PrefixChain<T>(logs: seq<seq<T>>, i: nat, j: nat)
    requires i <= j < |logs| && forall k | i <= k < j :: logs[k] <= logs[k + 1]
    ensures logs[i] <= logs[j]
    decreases j
  {
    if i < j { PrefixChain(logs, i, j - 1); }
  }

  function Logs<S, E, B, D>(ws: seq<World<S, E, B, D>>): (logs: seq<seq<Handled<E, B>>>)
    ensures |logs| == |ws| && forall k | 0 <= k < |ws| :: logs[k] == ws[k].log
  {
    seq(|ws|, k requires 0 <= k < |ws| => ws[k].log)
  }

  /** Without such a stop the durable history only grows. */
  lemma {:induction false} HistoryGrows<S, E, B, D>(
    plugin: Plugin<S, E, B, D>, ws: seq<World<S, E, B, D>>, actions: seq<Action<E, B>>, i: nat, j: nat)
    requires Run(plugin, ws, actions) && i <= j < |ws|
    requires forall k | i <= k < j :: !EarlyStop(ws[k], actions[k])
    ensures ws[i].log <= ws[j].log
  {
    forall k | i <= k < j ensures Logs(ws)[k] <= Logs(ws)[k + 1] { RunStepGrows(plugin, ws, actions, k); }
    PrefixChain(Logs(ws), i, j);
  }

  lemma {:induction false} RunSnoc<S, E, B, D>(
    plugin: Plugin<S, E, B, D>, ws: seq<World<S, E, B, D>>, actions: seq<Action<E, B>>, a: Action<E, B>,
    w: World<S, E, B, D>)
    requires Run(plugin, ws, actions) && Next(plugin, Last(ws), a, w)
    ensures Run(plugin, ws + [w], actions + [a])
  {
    forall i | 0 <= i < |actions + [a]| ensures Next(plugin, (ws + [w])[i], (actions + [a])[i], (ws + [w])[i + 1]) {
      if i < |actions| { assert Next(plugin, ws[i], actions[i], ws[i + 1]); }
    }
  }

  /** From any moment without a process, creating one and stopping it makes every event unread again. */
  lemma {:induction false} EarlyStopForgets<S, E, B, D>(
    plugin: Plugin<S, E, B, D>, ws: seq<World<S, E, B, D>>, actions: seq<Action<E, B>>)
    returns (ws': seq<World<S, E, B, D>>)
    requires Run(plugin, ws, actions) && Last(ws).process.None?
    ensures Run(plugin, ws', actions + [New, Stop])
    ensures var saved := Last(ws').saved;
      saved.Some? && saved.value.lastBar.None? && Past(Last(ws').feed, saved.value.cursor) == Last(ws).feed
  {
    RunKeeps(plugin, ws, actions, |actions|);
    var w := Last(ws);
    var created := Process(Created, None, Replay(plugin, []), Ready, []);
    var w1 := Live(w, created);
    var w2 := Save(w1, Did(plugin, created, Called(None, Halted)).(status := Stopped));
    RunSnoc(plugin, ws, actions, New, w1);
    RunSnoc(plugin, ws + [w1], actions + [New], Stop, w2);
    ws' := ws + [w1] + [w2];
    assert actions + [New] + [Stop] == actions + [New, Stop];
    PastAll(w.feed);
  }

  // --------------------------------------------------------------- the orders sent

  /** A bar that is replayed from the same strategy state repeats the orders of its first attempt. */
  lemma {:induction false} ReplayRepeatsDecisions<S, E, B, D>(
    plugin: Plugin<S, E, B, D>, ws: seq<World<S, E, B, D>>, actions: seq<Action<E, B>>, i: nat, a: nat, b: nat)
    requires Run(plugin, ws, actions) && i < |ws| && a < |ws[i].attempts| && b < |ws[i].attempts|
    requires var t, u := ws[i].attempts[a], ws[i].attempts[b];
      t.date == u.date && t.bar == u.bar && Replay(plugin, t.after).state == Replay(plugin, u.after).state
    ensures var t, u := ws[i].attempts[a], ws[i].attempts[b]; t.sent <= u.sent || u.sent <= t.sent
  {
    RunKeeps(plugin, ws, actions, i);
    assert AttemptOk(plugin, ws[i].attempts[a]) && AttemptOk(plugin, ws[i].attempts[b]);
  }

  ghost predicate IdsInjective<S, E, B, D(!new)>(plugin: Plugin<S, E, B, D>) {
    forall k, l :: plugin.clientId(k) == plugin.clientId(l) ==> k == l
  }

  /** What an attempt decides, from the strategy state it begins with. */
  function Decisions<S, E, B, D>(plugin: Plugin<S, E, B, D>, t: Attempt<E, B, D>): seq<D> {
    plugin.onBar(t.date, Replay(plugin, t.after).state, t.bar.inputs).decisions
  }

  /**
   Two orders share an id if and only if they are for the same date, bar end and place and the
   plugin decided the same there, in whatever state it was.
   */
  lemma {:induction false} SameIdIff<S, E, B, D(!new)>(
    plugin: Plugin<S, E, B, D>, ws: seq<World<S, E, B, D>>, actions: seq<Action<E, B>>, i: nat, a: nat, b: nat, m: nat,
    n: nat)
    requires Run(plugin, ws, actions) && IdsInjective(plugin)
    requires i < |ws| && a < |ws[i].attempts| && b < |ws[i].attempts|
    requires m < |ws[i].attempts[a].sent| && n < |ws[i].attempts[b].sent|
    ensures var t, u := ws[i].attempts[a], ws[i].attempts[b];
      && m < |Decisions(plugin, t)| && n < |Decisions(plugin, u)|
      && (t.sent[m].id == u.sent[n].id <==>
          t.date == u.date && t.bar.end == u.bar.end && m == n && Decisions(plugin, t)[m] == Decisions(plugin, u)[n])
  {
    RunKeeps(plugin, ws, actions, i);
    var t, u := ws[i].attempts[a], ws[i].attempts[b];
    assert AttemptOk(plugin, t) && AttemptOk(plugin, u);
  }

  /**
   End to end: however often a bar is interrupted and taken again, as long as the plugin decides
   the same at one place of it, the order at that place reaches the broker at most once.
   */
  lemma {:induction false} DecisionPlacedAtMostOnce<S, E, B, D>(
    plugin: Plugin<S, E, B, D>, ws: seq<World<S, E, B, D>>, actions: seq<Action<E, B>>, i: nat, a: nat, b: nat, n: nat,
    states: seq<Placement.Sys>, steps: seq<Placement.Action>, j: nat, k: nat, l: nat)
    requires Run(plugin, ws, actions) && i < |ws| && a < |ws[i].attempts| && b < |ws[i].attempts|
    requires var t, u := ws[i].attempts[a], ws[i].attempts[b];
      && t.date == u.date && t.bar.end == u.bar.end && n < |t.sent| && n < |u.sent|
      && t.sent[n].key.decision == u.sent[n].key.decision
    requires Placement.Execution(states, steps) && j < |states| && k < |states[j].placed| && l < |states[j].placed|
    requires states[j].placed[k].clientOrderId == ws[i].attempts[a].sent[n].id
    requires states[j].placed[l].clientOrderId == ws[i].attempts[b].sent[n].id
    ensures k == l
  {
    RunKeeps(plugin, ws, actions, i);
    assert AttemptOk(plugin, ws[i].attempts[a]) && AttemptOk(plugin, ws[i].attempts[b]);
    Placement.AtMostOncePlacement(states, steps, j);
  }
}
