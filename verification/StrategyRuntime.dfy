/**
 The strategy runtime: handlers for bars and order events, a checkpoint that holds cursor and
 strategy state together, and deterministic order ids.  This is the runner as it is programmed;
 module StrategyRuns cuts its methods where a process can die.
 */
module StrategyRuntime {
  import opened Wrappers
  import opened EventFeed

  /** What the plugin does with a bar: its new state, the orders it could build, and whether it then raised. */
  datatype Pass<S, D> = Pass(after: S, decisions: seq<D>, raises: bool)

  /** What the plugin does with an order event. */
  datatype Reaction<S> = Reaction(after: S, raises: bool)

  /** The callbacks at the start of a session, at the end of a trading day and at a stop. */
  datatype Call = Opened | DayEnded | Halted

  /** A strategy whose behaviour is captured by its snapshot state; every callback sees the trading date. */
  datatype Plugin<!S, !E, !B, !D> = Plugin(
    init: S, onCall: (Option<int>, Call, S) -> S, onEvent: (Option<int>, S, E) -> Reaction<S>,
    onBar: (Option<int>, S, B) -> Pass<S, D>, clientId: DecisionKey<D> -> string)

  /** What the order id digests, besides the constants of the runtime. */
  datatype DecisionKey<D> = DecisionKey(date: Option<int>, barEnd: int, decision: D, ordinal: nat)

  datatype Bar<B> = Bar(end: int, inputs: B)

  datatype Submission<D> = Submission(id: string, key: DecisionKey<D>)

  /** What a checkpoint says about the past. */
  datatype Progress<S> = Progress(cursor: int, lastBar: Option<int>, state: S)

  datatype Status = Created | Running | Paused | Failed | Stopped

  datatype Checkpoint<S> = Checkpoint(mode: int, status: Status, date: Option<int>, progress: Progress<S>)

  datatype RuntimeError = NotActive | ModeDiffers | PassFailed | CallbackFailed

  predicate Active(status: Status) { status == Running || status == Paused }

  predicate Accepts<S, B>(p: Progress<S>, bar: Bar<B>) { p.lastBar.None? || bar.end > p.lastBar.value }

  function Key<B, D>(date: Option<int>, bar: Bar<B>, decision: D, ordinal: nat): DecisionKey<D> {
    DecisionKey(date, bar.end, decision, ordinal)
  }

  /** The orders a bar leads to, in order. */
  function Submissions<S, E, B, D>(plugin: Plugin<S, E, B, D>, date: Option<int>, before: S, bar: Bar<B>)
    : (out: seq<Submission<D>>)
    ensures var ds := plugin.onBar(date, before, bar.inputs).decisions;
      |out| == |ds| && forall i | 0 <= i < |ds| ::
        out[i] == Submission(plugin.clientId(Key(date, bar, ds[i], i)), Key(date, bar, ds[i], i))
  {
    var ds := plugin.onBar(date, before, bar.inputs).decisions;
    seq(|ds|, i requires 0 <= i < |ds| =>
      Submission(plugin.clientId(Key(date, bar, ds[i], i)), Key(date, bar, ds[i], i)))
  }

  function FoldEvents<S, E, B, D>(plugin: Plugin<S, E, B, D>, date: Option<int>, p: Progress<S>, page: seq<Entry<E>>)
    : Progress<S>
  {
    if page == [] then p
    else
      var q := FoldEvents(plugin, date, p, page[..|page| - 1]);
      var e := page[|page| - 1];
      q.(cursor := e.id, state := plugin.onEvent(date, q.state, e.item).after)
  }

  /** What the plugin does with the n-th event of a page when it has handled the ones before it. */
  function ReactionAt<S, E, B, D>(
    plugin: Plugin<S, E, B, D>, date: Option<int>, p: Progress<S>, page: seq<Entry<E>>, n: nat): Reaction<S>
    requires n < |page|
  {
    plugin.onEvent(date, FoldEvents(plugin, date, p, page[..n]).state, page[n].item)
  }

  /** How many events of a page are handled before a callback raises. */
  function SmoothPart<S, E, B, D>(
    plugin: Plugin<S, E, B, D>, date: Option<int>, p: Progress<S>, page: seq<Entry<E>>): (n: nat)
    ensures n <= |page| && forall k | 0 <= k < n :: !ReactionAt(plugin, date, p, page, k).raises
    ensures n < |page| ==> ReactionAt(plugin, date, p, page, n).raises
  {
    if page == [] then 0
    else
      var last := |page| - 1;
      var n := SmoothPart(plugin, date, p, page[..last]);
      assert forall k | 0 <= k <= last :: page[..last][..k] == page[..k];
      assert forall k | 0 <= k < last :: ReactionAt(plugin, date, p, page[..last], k) == ReactionAt(plugin, date, p, page, k);
      if n < last || ReactionAt(plugin, date, p, page, last).raises then n else |page|
  }

  lemma {:induction false} SmoothUpTo<S, E, B, D>(
    plugin: Plugin<S, E, B, D>, date: Option<int>, p: Progress<S>, page: seq<Entry<E>>, n: nat)
    requires n <= |page| && forall k | 0 <= k < n :: !ReactionAt(plugin, date, p, page, k).raises
    requires n < |page| ==> ReactionAt(plugin, date, p, page, n).raises
    ensures SmoothPart(plugin, date, p, page) == n
  {
  }

  /** The events before the n-th are handled; of the n-th only the state remains. */
  function Interrupted<S, E, B, D>(
    plugin: Plugin<S, E, B, D>, date: Option<int>, p: Progress<S>, page: seq<Entry<E>>, n: nat): Progress<S>
    requires n < |page|
  {
    FoldEvents(plugin, date, p, page[..n]).(state := ReactionAt(plugin, date, p, page, n).after)
  }

  class CheckpointStore<S> {
    var saved: Option<Checkpoint<S>>

    constructor ()
      ensures saved == None
    {
      saved := None;
    }
  }

  /** Where orders go; a submission may raise. */
  class Executor<D> {
    var sent: seq<Submission<D>>

    constructor ()
      ensures sent == []
    {
      sent := [];
    }

    method Submit(s: Submission<D>) returns (ok: bool)
      modifies this
      ensures sent == old(sent) + [s]
    {
      sent := sent + [s];
      ok := *;
    }
  }

  class Runtime<S, E, B, D> {
    const plugin: Plugin<S, E, B, D>
    const mode: int
    const store: CheckpointStore<S>
    const executor: Executor<D>
    var status: Status
    var date: Option<int>
    var cursor: int
    var lastBar: Option<int>
    var state: S

    constructor (plugin: Plugin<S, E, B, D>, mode: int, store: CheckpointStore<S>, executor: Executor<D>)
      ensures this.plugin == plugin && this.mode == mode && this.store == store && this.executor == executor
      ensures status == Created && date == None && Now() == Progress(0, None, plugin.init)
    {
      this.plugin, this.mode, this.store, this.executor := plugin, mode, store, executor;
      status, date, cursor, lastBar, state := Created, None, 0, None, plugin.init;
    }

    function Now(): Progress<S>
      reads this
    {
      Progress(cursor, lastBar, state)
    }

    method SaveCheckpoint()
      modifies store
      ensures store.saved == Some(Checkpoint(mode, status, date, Now()))
    {
      store.saved := Some(Checkpoint(mode, status, date, Progress(cursor, lastBar, state)));
    }

    /** Goes on from the checkpoint, not from what the process still remembers. */
    method Start(date: int) returns (r: Result<(), RuntimeError>)
      modifies this, store
      ensures old(status) == Running ==> r == Ok(()) && unchanged(this) && unchanged(store)
      ensures old(status) != Running && old(store.saved).Some? && old(store.saved).value.mode != mode ==>
        r == Err(ModeDiffers) && unchanged(this) && unchanged(store)
      ensures old(status) != Running && (old(store.saved).None? || old(store.saved).value.mode == mode) ==>
        var p := if old(store.saved).Some? then old(store.saved).value.progress else old(Now());
        && r == Ok(()) && status == Running && this.date == Some(date)
        && Now() == p.(state := plugin.onCall(Some(date), Opened, p.state))
        && store.saved == Some(Checkpoint(mode, Running, Some(date), Now()))
    {
      if status == Running { return Ok(()); }
      if store.saved.Some? {
        var restored := store.saved.value;
        if restored.mode != mode { return Err(ModeDiffers); }
        cursor, lastBar := restored.progress.cursor, restored.progress.lastBar;
        state := restored.progress.state;
      }
      this.date, status := Some(date), Running;
      state := plugin.onCall(this.date, Opened, state);
      SaveCheckpoint();
      return Ok(());
    }

    method Pause() returns (ok: bool)
      modifies this, store
      ensures ok == (old(status) == Running) && date == old(date) && Now() == old(Now())
      ensures ok ==> status == Paused && store.saved == Some(Checkpoint(mode, Paused, date, Now()))
      ensures !ok ==> unchanged(this) && unchanged(store)
    {
      if status != Running { return false; }
      status := Paused;
      SaveCheckpoint();
      return true;
    }

    method Resume() returns (ok: bool)
      modifies this, store
      ensures ok == (old(status) == Paused) && date == old(date) && Now() == old(Now())
      ensures ok ==> status == Running && store.saved == Some(Checkpoint(mode, Running, date, Now()))
      ensures !ok ==> unchanged(this) && unchanged(store)
    {
      if status != Paused { return false; }
      status := Running;
      SaveCheckpoint();
      return true;
    }

    method CloseTradingDay() returns (ok: bool)
      modifies this, store
      ensures ok == Active(old(status))
      ensures ok ==>
        && status == Paused && date == None
        && Now() == old(Now()).(state := plugin.onCall(old(date), DayEnded, old(state)))
        && store.saved == Some(Checkpoint(mode, Paused, None, Now()))
      ensures !ok ==> unchanged(this) && unchanged(store)
    {
      if status != Running && status != Paused { return false; }
      state := plugin.onCall(date, DayEnded, state);
      date, status := None, Paused;
      SaveCheckpoint();
      return true;
    }

    /** Only a stopped runtime refuses; one that never started checkpoints its empty memory. */
    method Stop()
      modifies this, store
      ensures old(status) == Stopped ==> unchanged(this) && unchanged(store)
      ensures old(status) != Stopped ==>
        && status == Stopped && date == old(date)
        && Now() == old(Now()).(state := plugin.onCall(date, Halted, old(state)))
        && store.saved == Some(Checkpoint(mode, Stopped, date, Now()))
    {
      if status == Stopped { return; }
      state := plugin.onCall(date, Halted, state);
      status := Stopped;
      SaveCheckpoint();
    }

    /**
     A bar at or before the last one is ignored.  A raising plugin or submission fails the
     runtime: the state reached so far is checkpointed, the bar is not.
     */
    method ProcessBar(bar: Bar<B>) returns (r: Result<nat, RuntimeError>)
      modifies this, store, executor
      ensures date == old(date)
      ensures old(status) != Running ==> r == Err(NotActive) && unchanged(this) && unchanged(store) && unchanged(executor)
      ensures old(status) == Running && !Accepts(old(Now()), bar) ==>
        r == Ok(0) && unchanged(this) && unchanged(store) && unchanged(executor)
      ensures old(status) == Running && Accepts(old(Now()), bar) ==>
        var out := Submissions(plugin, date, old(state), bar); var pass := plugin.onBar(date, old(state), bar.inputs);
        && (r.Ok? ==> r == Ok(|out|) && !pass.raises && status == Running && executor.sent == old(executor.sent) + out
                      && Now() == Progress(old(cursor), Some(bar.end), pass.after))
        && (r.Err? ==> r == Err(PassFailed) && status == Failed && Now() == old(Now()).(state := pass.after)
                       && exists n :: 0 <= n <= |out| && executor.sent == old(executor.sent) + out[..n]
                                   && (n == 0 ==> out == [] && pass.raises))
        && store.saved == Some(Checkpoint(mode, status, date, Now()))
    {
      if status != Running { return Err(NotActive); }
      if lastBar.Some? && bar.end <= lastBar.value { return Ok(0); }
      ghost var out := Submissions(plugin, date, state, bar);
      var pass := plugin.onBar(date, state, bar.inputs);
      state := pass.after;
      for ordinal := 0 to |pass.decisions|
        invariant executor.sent == old(executor.sent) + out[..ordinal]
        invariant unchanged(store) && status == Running && date == old(date)
        invariant Now() == old(Now()).(state := pass.after)
      {
        var key := Key(date, bar, pass.decisions[ordinal], ordinal);
        var ok := executor.Submit(Submission(plugin.clientId(key), key));
        assert out[..ordinal + 1] == out[..ordinal] + [out[ordinal]];
        if !ok {
          status := Failed;
          SaveCheckpoint();
          return Err(PassFailed);
        }
      }
      assert out[..|pass.decisions|] == out;
      if pass.raises {
        status := Failed;
        SaveCheckpoint();
        return Err(PassFailed);
      }
      lastBar := Some(bar.end);
      SaveCheckpoint();
      return Ok(|pass.decisions|);
    }

    /**
     The checkpoint follows every single event, so a crash repeats at most the one in hand.  A
     raising callback ends the poll without a checkpoint, but its state stays in memory.
     */
    method PollOrderEvents(feed: seq<Entry<E>>, limit: nat) returns (r: Result<seq<Entry<E>>, RuntimeError>)
      modifies this, store
      ensures status == old(status) && date == old(date)
      ensures !Active(old(status)) ==> r == Err(NotActive) && unchanged(this) && unchanged(store)
      ensures Active(old(status)) ==>
        var page := Take(Past(feed, old(cursor)), limit); var n := SmoothPart(plugin, date, old(Now()), page);
        && r == (if n == |page| then Ok(page) else Err(CallbackFailed))
        && Now() == (if n == |page| then FoldEvents(plugin, date, old(Now()), page)
                     else Interrupted(plugin, date, old(Now()), page, n))
        && store.saved == (if n == 0 && page != [] then old(store.saved)
                           else Some(Checkpoint(mode, status, date, FoldEvents(plugin, date, old(Now()), page[..n]))))
    {
      if status != Running && status != Paused { return Err(NotActive); }
      var page := Take(Past(feed, cursor), limit);
      for k := 0 to |page|
        invariant Now() == FoldEvents(plugin, date, old(Now()), page[..k])
        invariant status == old(status) && date == old(date)
        invariant forall n | 0 <= n < k :: !ReactionAt(plugin, date, old(Now()), page, n).raises
        invariant store.saved == if k == 0 then old(store.saved) else Some(Checkpoint(mode, status, date, Now()))
      {
        assert page[..k + 1][..k] == page[..k];
        var reaction := plugin.onEvent(date, state, page[k].item);
        assert reaction == ReactionAt(plugin, date, old(Now()), page, k);
        state := reaction.after;
        if reaction.raises {
          SmoothUpTo(plugin, date, old(Now()), page, k);
          return Err(CallbackFailed);
        }
        cursor := page[k].id;
        SaveCheckpoint();
      }
      SmoothUpTo(plugin, date, old(Now()), page, |page|);
      assert page[..|page|] == page;
      SaveCheckpoint();
      return Ok(page);
    }
  }
}
