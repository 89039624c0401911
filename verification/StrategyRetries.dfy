/**
 What failures do to a strategy.  A raising plugin, submission or callback leaves the strategy
 state past a bar or event that is taken again later.  Checkpoint and memory are what the
 completed passes alone lead to exactly as long as no failing pass has changed the state.
 */
module StrategyRetries {
  import opened Wrappers
  import opened StrategyRuntime
  import opened StrategyRuns

  /** The completed passes alone lead to the same place. */
  ghost predicate Sound<S, E, B, D>(plugin: Plugin<S, E, B, D>, log: seq<Handled<E, B>>) {
    Replay(plugin, log) == Replay(plugin, Completed(log))
  }

  /** So it is for the checkpoint, and between two handlers for the memory. */
  ghost predicate SoundWorld<S, E, B, D>(plugin: Plugin<S, E, B, D>, w: World<S, E, B, D>) {
    && Sound(plugin, w.log)
    && (w.process.Some? && (w.process.value.phase.Ready? || w.process.value.phase.Polling?) ==>
          Sound(plugin, w.process.value.history))
  }

  predicate Fails<E, B>(a: Action<E, B>) { a.FailBar? || a.AbandonPoll? }

  /** If this step is a failure, the failing pass has left the strategy state as it found it. */
  ghost predicate Harmless<S, E, B, D>(plugin: Plugin<S, E, B, D>, w: World<S, E, B, D>, a: Action<E, B>) {
    Fails(a) && w.process.Some? && w.process.value.history != [] ==>
      w.process.value.now.state == Replay(plugin, Front(w.process.value.history)).state
  }

  /** Every pass that was not completed left everything as it was. */
  ghost predicate Still<S, E, B, D>(plugin: Plugin<S, E, B, D>, log: seq<Handled<E, B>>) {
    log == [] ||
    (Still(plugin, Front(log)) &&
     (Undone(Last(log)) ==> Effect(plugin, Replay(plugin, Front(log)), Last(log)) == Replay(plugin, Front(log))))
  }

  lemma {:induction false} StillIsSound<S, E, B, D>(plugin: Plugin<S, E, B, D>, log: seq<Handled<E, B>>)
    requires Still(plugin, log)
    ensures Sound(plugin, log)
  {
    if log != [] {
      StillIsSound(plugin, Front(log));
      assert log == Front(log) + [Last(log)];
      Snoc(plugin, Front(log), Last(log));
      Snoc(plugin, Completed(Front(log)), Last(log));
    }
  }

  lemma {:induction false} StillSnoc<S, E, B, D>(plugin: Plugin<S, E, B, D>, log: seq<Handled<E, B>>, h: Handled<E, B>)
    ensures Still(plugin, log + [h])
      <==> Still(plugin, log) && (Undone(h) ==> Effect(plugin, Replay(plugin, log), h) == Replay(plugin, log))
  {
    assert (log + [h])[..|log|] == log;
  }

  // ------------------------------------------------------------- harmless failures

  /** The history is still, but for the pass in hand. */
  ghost predicate Quiet<S, E, B, D>(plugin: Plugin<S, E, B, D>, p: Process<S, E, B, D>) {
    if p.phase.Submitting? || p.phase.Handling? then p.history != [] && Still(plugin, Front(p.history))
    else Still(plugin, p.history)
  }

  ghost predicate QuietWorld<S, E, B, D>(plugin: Plugin<S, E, B, D>, w: World<S, E, B, D>) {
    Still(plugin, w.log) && (w.process.Some? ==> Quiet(plugin, w.process.value))
  }

  lemma {:induction false} ManagesQuiet<S, E, B, D>(
    plugin: Plugin<S, E, B, D>, w: World<S, E, B, D>, p: Process<S, E, B, D>, a: Action<E, B>, w': World<S, E, B, D>)
    requires Sessional(a) && w.process == Some(p) && QuietWorld(plugin, w) && Manages(plugin, w, p, a, w')
    ensures QuietWorld(plugin, w')
  {
    if a.Start? {
      StillSnoc(plugin, Opening(w, p, a.date).history, Called(Some(a.date), Opened));
    } else if a.CloseDay? {
      StillSnoc(plugin, p.history, Called(p.date, DayEnded));
    } else if a.Stop? {
      StillSnoc(plugin, p.history, Called(p.date, Halted));
    }
  }

  /** The pass in hand is the last entry, and what it changed is at most the state. */
  lemma {:induction false} InHandStill<S, E, B, D>(
    plugin: Plugin<S, E, B, D>, w: World<S, E, B, D>, p: Process<S, E, B, D>)
    requires ProcessOk(plugin, w, p) && (p.phase.Submitting? || p.phase.Handling?)
    ensures p.history != [] && Undone(Last(p.history))
    ensures Effect(plugin, Replay(plugin, Front(p.history)), Last(p.history))
      == Replay(plugin, Front(p.history)).(state := p.now.state)
  {
  }

  lemma {:induction false} BarQuiet<S, E, B, D>(
    plugin: Plugin<S, E, B, D>, w: World<S, E, B, D>, p: Process<S, E, B, D>, a: Action<E, B>, w': World<S, E, B, D>)
    requires w.process == Some(p) && ProcessOk(plugin, w, p) && QuietWorld(plugin, w) && Harmless(plugin, w, a)
    requires Barwise(a) && TakesBar(plugin, w, p, a, w')
    ensures QuietWorld(plugin, w')
  {
    match a
    case BeginBar(bar) => Snoc(plugin, p.history, BarPass(p.date, bar, false));
    case FinishBar => StillSnoc(plugin, Front(p.history), BarPass(p.date, p.phase.bar, true));
    case FailBar => InHandStill(plugin, w, p);
    case SubmitNext =>
  }

  lemma {:induction false} PollQuiet<S, E, B, D>(
    plugin: Plugin<S, E, B, D>, w: World<S, E, B, D>, p: Process<S, E, B, D>, a: Action<E, B>, w': World<S, E, B, D>)
    requires w.process == Some(p) && ProcessOk(plugin, w, p) && QuietWorld(plugin, w) && Harmless(plugin, w, a)
    requires Polls(plugin, w, p, a, w')
    ensures QuietWorld(plugin, w')
  {
    match a
    case HandleEvent => Snoc(plugin, p.history, EventPass(p.date, p.phase.rest[0], false));
    case SaveEvent => StillSnoc(plugin, Front(p.history), EventPass(p.date, p.phase.rest[0], true));
    case AbandonPoll => InHandStill(plugin, w, p);
    case _ =>
  }

  lemma {:induction false} StepQuiet<S, E, B, D>(
    plugin: Plugin<S, E, B, D>, w: World<S, E, B, D>, a: Action<E, B>, w': World<S, E, B, D>)
    requires Inv(plugin, w) && Next(plugin, w, a, w') && QuietWorld(plugin, w) && Harmless(plugin, w, a)
    ensures QuietWorld(plugin, w')
  {
    if !a.Append? && !a.New? && !a.Crash? {
      var p := w.process.value;
      if Sessional(a) {
        ManagesQuiet(plugin, w, p, a, w');
      } else if Barwise(a) {
        BarQuiet(plugin, w, p, a, w');
      } else {
        PollQuiet(plugin, w, p, a, w');
      }
    }
  }

  lemma {:induction false} RunQuiet<S, E, B, D>(
    plugin: Plugin<S, E, B, D>, ws: seq<World<S, E, B, D>>, actions: seq<Action<E, B>>, j: nat)
    requires Run(plugin, ws, actions) && j < |ws| && forall k | 0 <= k < j :: Harmless(plugin, ws[k], actions[k])
    ensures QuietWorld(plugin, ws[j])
    decreases j
  {
    if j > 0 {
      RunQuiet(plugin, ws, actions, j - 1);
      RunKeeps(plugin, ws, actions, j - 1);
      assert Next(plugin, ws[j - 1], actions[j - 1], ws[j]) && Harmless(plugin, ws[j - 1], actions[j - 1]);
      StepQuiet(plugin, ws[j - 1], actions[j - 1], ws[j]);
    }
  }

  lemma {:induction false} QuietIsSound<S, E, B, D>(plugin: Plugin<S, E, B, D>, w: World<S, E, B, D>)
    requires QuietWorld(plugin, w)
    ensures SoundWorld(plugin, w)
  {
    StillIsSound(plugin, w.log);
    if w.process.Some? && (w.process.value.phase.Ready? || w.process.value.phase.Polling?) {
      StillIsSound(plugin, w.process.value.history);
    }
  }

  // -------------------------------------------------------------- harmful failures

  lemma {:induction false} UndoneShows<S, E, B, D>(plugin: Plugin<S, E, B, D>, log: seq<Handled<E, B>>)
    requires log != [] && Undone(Last(log)) && Sound(plugin, Front(log)) && Replay(plugin, log) != Replay(plugin, Front(log))
    ensures !Sound(plugin, log)
  {
  }

  lemma {:induction false} HarmShows<S, E, B, D>(
    plugin: Plugin<S, E, B, D>, ws: seq<World<S, E, B, D>>, actions: seq<Action<E, B>>, j: nat)
    requires Run(plugin, ws, actions) && j < |actions| && QuietWorld(plugin, ws[j])
    requires !Harmless(plugin, ws[j], actions[j])
    ensures !SoundWorld(plugin, ws[j + 1])
  {
    RunKeeps(plugin, ws, actions, j);
    assert Next(plugin, ws[j], actions[j], ws[j + 1]);
    var p := ws[j].process.value;
    StillIsSound(plugin, Front(p.history));
    UndoneShows(plugin, p.history);
  }

  /**
   Over every run: checkpoint and memory are at all times what the completed passes alone lead
   to, if and only if each failing pass left the strategy state as it found it.  In particular
   they are when nothing has raised.
   */
  lemma {:induction false} SoundRunIff<S, E, B, D>(
    plugin: Plugin<S, E, B, D>, ws: seq<World<S, E, B, D>>, actions: seq<Action<E, B>>)
    requires Run(plugin, ws, actions)
    ensures (forall j | 0 <= j < |ws| :: SoundWorld(plugin, ws[j]))
      <==> (forall j | 0 <= j < |actions| :: Harmless(plugin, ws[j], actions[j]))
  {
    if forall j | 0 <= j < |actions| :: Harmless(plugin, ws[j], actions[j]) {
      forall j | 0 <= j < |ws| ensures SoundWorld(plugin, ws[j]) {
        RunQuiet(plugin, ws, actions, j);
        QuietIsSound(plugin, ws[j]);
      }
    } else {
      var j := FirstHarm(plugin, ws, actions);
      RunQuiet(plugin, ws, actions, j);
      HarmShows(plugin, ws, actions, j);
    }
  }

  lemma {:induction false} FirstHarm<S, E, B, D>(
    plugin: Plugin<S, E, B, D>, ws: seq<World<S, E, B, D>>, actions: seq<Action<E, B>>) returns (j: nat)
    requires |ws| == |actions| + 1 && exists k :: 0 <= k < |actions| && !Harmless(plugin, ws[k], actions[k])
    ensures j < |actions| && !Harmless(plugin, ws[j], actions[j])
    ensures forall k | 0 <= k < j :: Harmless(plugin, ws[k], actions[k])
  {
    j := 0;
    while Harmless(plugin, ws[j], actions[j])
      invariant j < |actions|
      invariant forall k | 0 <= k < j :: Harmless(plugin, ws[k], actions[k])
      decreases |actions| - j
    {
      j := j + 1;
    }
  }

  // --------------------------------------------------------- such failures happen

  predicate CanFail<S, D>(pass: Pass<S, D>) { pass.decisions != [] || pass.raises }

  function Begun<S, E, B, D>(
    plugin: Plugin<S, E, B, D>, w: World<S, E, B, D>, p: Process<S, E, B, D>, bar: Bar<B>): World<S, E, B, D>
  {
    var out, pass := Submissions(plugin, p.date, p.now.state, bar), plugin.onBar(p.date, p.now.state, bar.inputs);
    Live(w, Did(plugin, p, BarPass(p.date, bar, false)).(phase := Submitting(bar, out, 0, pass.raises)))
      .(attempts := w.attempts + [Attempt(p.date, bar, p.history, [])])
  }

  lemma {:induction false} FirstSent<S, E, B, D>(
    plugin: Plugin<S, E, B, D>, ws: seq<World<S, E, B, D>>, actions: seq<Action<E, B>>, p: Process<S, E, B, D>)
    returns (ws': seq<World<S, E, B, D>>, actions': seq<Action<E, B>>)
    requires Run(plugin, ws, actions) && Last(ws).process == Some(p) && Last(ws).attempts != []
    requires p.phase.Submitting? && p.phase.next == 0 && p.phase.out != []
    ensures Run(plugin, ws', actions') && Last(ws').process == Some(p.(phase := p.phase.(next := 1)))
  {
    var w := Live(Last(ws), p.(phase := p.phase.(next := 1)))
               .(attempts := SentOneMore(Last(ws).attempts, p.phase.out[0]));
    RunSnoc(plugin, ws, actions, SubmitNext, w);
    ws', actions' := ws + [w], actions + [SubmitNext];
  }

  lemma {:induction false} FailsNow<S, E, B, D>(
    plugin: Plugin<S, E, B, D>, ws: seq<World<S, E, B, D>>, actions: seq<Action<E, B>>, p: Process<S, E, B, D>)
    returns (ws': seq<World<S, E, B, D>>, actions': seq<Action<E, B>>)
    requires Run(plugin, ws, actions) && Last(ws).process == Some(p) && p.phase.Submitting?
    requires p.phase.next > 0 || (p.phase.out == [] && p.phase.raises)
    ensures Run(plugin, ws', actions') && Last(ws').log == p.history && Last(ws').saved == Some(p.now)
  {
    var w := Save(Last(ws), p.(phase := Ready, status := Failed));
    RunSnoc(plugin, ws, actions, FailBar, w);
    ws', actions' := ws + [w], actions + [FailBar];
  }

  /** A bar that submits an order, or on which the plugin raises, can fail and stays to be taken. */
  lemma {:induction false} BarFails<S, E, B, D>(
    plugin: Plugin<S, E, B, D>, ws: seq<World<S, E, B, D>>, actions: seq<Action<E, B>>, p: Process<S, E, B, D>,
    bar: Bar<B>)
    returns (ws': seq<World<S, E, B, D>>, actions': seq<Action<E, B>>)
    requires Run(plugin, ws, actions) && Last(ws).process == Some(p) && p.phase.Ready? && p.status == Running
    requires Accepts(p.now, bar) && CanFail(plugin.onBar(p.date, p.now.state, bar.inputs))
    ensures Run(plugin, ws', actions') && Last(ws').log == p.history + [BarPass(p.date, bar, false)]
    ensures Last(ws').saved == Some(p.now.(state := plugin.onBar(p.date, p.now.state, bar.inputs).after))
    ensures Accepts(Last(ws').saved.value, bar)
  {
    var w := Begun(plugin, Last(ws), p, bar);
    RunSnoc(plugin, ws, actions, BeginBar(bar), w);
    ws', actions' := ws + [w], actions + [BeginBar(bar)];
    if w.process.value.phase.out != [] {
      ws', actions' := FirstSent(plugin, ws', actions', w.process.value);
    }
    ws', actions' := FailsNow(plugin, ws', actions', Last(ws').process.value);
  }

  /**
   Wherever a run has come to, a next bar that can fail and changes the strategy state leads to a
   checkpoint that is not what the completed passes lead to.
   */
  lemma {:induction false} FailureShows<S, E, B, D>(
    plugin: Plugin<S, E, B, D>, ws: seq<World<S, E, B, D>>, actions: seq<Action<E, B>>, bar: Bar<B>)
    returns (ws': seq<World<S, E, B, D>>, actions': seq<Action<E, B>>)
    requires Run(plugin, ws, actions)
    requires var w := Last(ws);
      && w.process.Some? && w.process.value.phase.Ready? && w.process.value.status == Running && SoundWorld(plugin, w)
      && Accepts(w.process.value.now, bar)
      && var p := w.process.value; var pass := plugin.onBar(p.date, p.now.state, bar.inputs);
         CanFail(pass) && pass.after != p.now.state
    ensures Run(plugin, ws', actions') && !Sound(plugin, Last(ws').log)
    ensures Last(ws').saved.Some? && Accepts(Last(ws').saved.value, bar)
  {
    RunKeeps(plugin, ws, actions, |actions|);
    var p := Last(ws).process.value;
    ws', actions' := BarFails(plugin, ws, actions, p, bar);
    Snoc(plugin, p.history, BarPass(p.date, bar, false));
    UndoneShows(plugin, Last(ws').log);
  }

  /** The first bar of the first session is such a bar for any plugin that changes its state on it. */
  lemma {:induction false} FirstBarFails<S, E, B, D>(plugin: Plugin<S, E, B, D>, date: int, bar: Bar<B>)
    returns (ws: seq<World<S, E, B, D>>, actions: seq<Action<E, B>>)
    requires var started := plugin.onCall(Some(date), Opened, plugin.init);
      var pass := plugin.onBar(Some(date), started, bar.inputs); CanFail(pass) && pass.after != started
    ensures Run(plugin, ws, actions) && !Sound(plugin, Last(ws).log)
  {
    var w0: World<S, E, B, D> := World.World([], None, None, [], []);
    var created := Process(Created, None, Replay(plugin, []), Ready, []);
    var w1 := Live(w0, created);
    var w2 := Save(w1, Did(plugin, Opening(w1, created, date), Called(Some(date), Opened)));
    assert Run(plugin, [w0], []);
    RunSnoc(plugin, [w0], [], New, w1);
    RunSnoc(plugin, [w0] + [w1], [] + [New], Start(date), w2);
    ws, actions := [w0] + [w1] + [w2], [] + [New] + [Start(date)];
    Snoc(plugin, [], Called(Some(date), Opened));
    StillSnoc(plugin, [], Called(Some(date), Opened));
    StillIsSound(plugin, w2.log);
    ws, actions := FailureShows(plugin, ws, actions, bar);
  }

  /**
   A bar that failed and is taken again after a restart repeats the id of its n-th order if and
   only if the plugin decides the same there from the state the failed pass has left.
   */
  lemma {:induction false} RetryRepeatsIdIff<S, E, B, D(!new)>(
    plugin: Plugin<S, E, B, D>, ws: seq<World<S, E, B, D>>, actions: seq<Action<E, B>>, i: nat, a: nat, b: nat, n: nat)
    requires Run(plugin, ws, actions) && IdsInjective(plugin)
    requires i < |ws| && a < |ws[i].attempts| && b < |ws[i].attempts|
    requires n < |ws[i].attempts[a].sent| && n < |ws[i].attempts[b].sent|
    requires var t, u := ws[i].attempts[a], ws[i].attempts[b];
      && u.date == t.date && u.bar == t.bar
      && u.after == t.after + [BarPass(t.date, t.bar, false)] + [Called(t.date, Opened)]
    ensures var t, u := ws[i].attempts[a], ws[i].attempts[b];
      var failed := plugin.onBar(t.date, Replay(plugin, t.after).state, t.bar.inputs);
      var again := plugin.onBar(t.date, plugin.onCall(t.date, Opened, failed.after), t.bar.inputs);
      && n < |failed.decisions| && n < |again.decisions|
      && (t.sent[n].id == u.sent[n].id <==> failed.decisions[n] == again.decisions[n])
  {
    var t := ws[i].attempts[a];
    SameIdIff(plugin, ws, actions, i, a, b, n, n);
    Snoc(plugin, t.after, BarPass(t.date, t.bar, false));
    Snoc(plugin, t.after + [BarPass(t.date, t.bar, false)], Called(t.date, Opened));
  }
}
