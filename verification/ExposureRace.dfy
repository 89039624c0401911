/**
 Why the gross cap is not kept.  The bound of module Exposure is reached: for every cap and every
 part of it, a run in which one read pair loses that part ends with exactly that much too much.
 */
module ExposureRace {
  import opened Wrappers
  import opened Orders
  import opened OrderTable
  import opened OrderRuns
  import opened OpenRisk
  import opened Sums
  import opened Exposure
  import Risk

  /** A limit order to buy at one dollar. */
  function PlainIntent(id: string, account: string, quantity: real): Intent {
    var stock := Instrument(Equity, "X", "USD", None, None, None, None, None, None, None, []);
    Intent(id, "s", Request(stock, Buy, quantity, Lmt, Some(1.0), None, Day, account, id, true, false, false,
                            None, None, None, None, false), None, map[])
  }

  function CapPolicy(cap: real): Risk.Policy {
    Risk.Policy(cap, cap, cap, 1.0, 100, 10.0 * cap, 10, 5, 1.0, 1.0, 5, {1}, false, false, false, true, 2.5)
  }

  function PlainSnapshot(account: string, cap: real, open: real): Risk.Account {
    Risk.Account(account, 0, cap, 0.0, 0.0, open, 0, 0.0, map[], map[], map[])
  }

  function PlainQuote(account: string): Risk.Quote {
    Risk.Quote(PlainIntent("", account, 1.0).request.instrument, 0, Some(1.0), Some(1.0), Some(1.0), None,
               Some(1), Some(0), None)
  }

  function SubmittedRow(intent: Intent): Row {
    ClaimSubmission(AuthorizedRow(NewRow(intent, None), "d"), "a", 0).value
  }

  function FilledRow(intent: Intent, part: real): Row { ApplyFill(SubmittedRow(intent), false, part, part) }

  lemma {:induction false} PlainOrderAllowed(id: string, account: string, cap: real, open: real, quantity: real)
    requires 0.0 < quantity && 0.0 <= open && open + quantity <= cap
    ensures var intent := PlainIntent(id, account, quantity);
      && Allows(Risk.Authorize(intent, PlainSnapshot(account, cap, open), PlainQuote(account), CapPolicy(cap), 0, false, 1, 1))
      && PlainRequest(intent.request) && Notional(intent.request) == quantity
  {
  }

  // ------------------------------------------------------------------ joining runs

  lemma {:induction false} RunConcat(
    ws: seq<World>, actions: seq<Action>, vs: seq<World>, more: seq<Action>, account: string, p: Risk.Policy)
    requires Exposure.Run(ws, actions, account, p) && Exposure.Run(vs, more, account, p) && ws[|actions|] == vs[0]
    ensures Exposure.Run(ws[..|actions|] + vs, actions + more, account, p)
  {
    var all, steps := ws[..|actions|] + vs, actions + more;
    forall i | 0 <= i < |steps| ensures Next(all[i], steps[i], all[i + 1], account, p) {
      if i < |actions| {
        assert Next(ws[i], actions[i], ws[i + 1], account, p);
        assert all[i] == ws[i] && all[i + 1] == ws[i + 1];
      } else {
        assert Next(vs[i - |actions|], more[i - |actions|], vs[i - |actions| + 1], account, p);
      }
    }
  }

  lemma {:induction false} Join(
    ws: seq<World>, actions: seq<Action>, vs: seq<World>, more: seq<Action>, account: string, p: Risk.Policy)
    returns (all: seq<World>, steps: seq<Action>)
    requires Exposure.Run(ws, actions, account, p) && Exposure.Run(vs, more, account, p) && ws[|actions|] == vs[0]
    ensures Exposure.Run(all, steps, account, p) && all[0] == ws[0] && all[|steps|] == vs[|more|]
  {
    RunConcat(ws, actions, vs, more, account, p);
    all, steps := ws[..|actions|] + vs, actions + more;
  }

  ghost predicate Goes(w: World, a: Action, w': World, account: string, p: Risk.Policy) { Next(w, a, w', account, p) }

  lemma {:induction false} OneStep(w: World, a: Action, w': World, account: string, p: Risk.Policy)
    returns (ws: seq<World>, actions: seq<Action>)
    requires Goes(w, a, w', account, p)
    ensures Exposure.Run(ws, actions, account, p) && ws[0] == w && ws[|actions|] == w'
  {
    ws, actions := [w, w'], [a];
  }

  // -------------------------------------------------------------- one order placed

  function Decided(w: World, id: string, intent: Intent): World
    requires w.pc.BothRead?
  {
    w.(orders := w.orders[id := AuthorizedRow(NewRow(intent, None), "d")], pc := Approved(id, intent.request),
       missed := Max(w.missed, w.pc.lost))
  }

  function Claims(w: World, id: string, intent: Intent): World {
    w.(orders := w.orders[id := SubmittedRow(intent)], pc := Claimed(id, intent.request))
  }

  lemma {:induction false} DecideRun(w: World, id: string, account: string, cap: real, quantity: real)
    returns (ws: seq<World>, actions: seq<Action>)
    requires w.pc.BothRead? && w.pc.gross == 0.0 && w.pc.open >= 0.0 && quantity > 0.0 && w.pc.open + quantity <= cap
    requires id in w.orders && w.orders[id] == NewRow(PlainIntent(id, account, quantity), None)
    ensures Exposure.Run(ws, actions, account, CapPolicy(cap)) && ws[0] == w
    ensures ws[|actions|] == Decided(w, id, PlainIntent(id, account, quantity))
  {
    PlainOrderAllowed(id, account, cap, w.pc.open, quantity);
    var intent := PlainIntent(id, account, quantity);
    var a := Decide(intent, PlainSnapshot(account, cap, w.pc.open), PlainQuote(account), 0, false, "d");
    assert OpenedFor(w.orders, intent);
    ws, actions := OneStep(w, a, Decided(w, id, intent), account, CapPolicy(cap));
  }

  lemma {:induction false} ClaimRun(w: World, id: string, intent: Intent, account: string, p: Risk.Policy)
    returns (ws: seq<World>, actions: seq<Action>)
    requires id in w.orders && w.orders[id] == AuthorizedRow(NewRow(intent, None), "d")
    requires w.pc == Approved(id, intent.request)
    ensures Exposure.Run(ws, actions, account, p) && ws[0] == w && ws[|actions|] == Claims(w, id, intent)
  {
    ws, actions := OneStep(w, Claim("a", 0), Claims(w, id, intent), account, p);
  }

  lemma {:induction false} PlaceRun(w: World, account: string, p: Risk.Policy)
    returns (ws: seq<World>, actions: seq<Action>)
    requires w.pc.Claimed?
    ensures Exposure.Run(ws, actions, account, p) && ws[0] == w
    ensures ws[|actions|] == w.(live := w.live[w.pc.id := Notional(w.pc.request)], pc := Idle)
  {
    ws, actions := OneStep(w, Place(true), w.(live := w.live[w.pc.id := Notional(w.pc.request)], pc := Idle), account, p);
  }

  /** An order that fits what the reads leave is approved, claimed and received. */
  lemma {:induction false} SubmitRun(w: World, id: string, account: string, cap: real, quantity: real)
    returns (ws: seq<World>, actions: seq<Action>)
    requires w.pc.BothRead? && w.pc.gross == 0.0 && w.pc.open >= 0.0 && quantity > 0.0 && w.pc.open + quantity <= cap
    requires id in w.orders && w.orders[id] == NewRow(PlainIntent(id, account, quantity), None)
    ensures Exposure.Run(ws, actions, account, CapPolicy(cap)) && ws[0] == w
    ensures ws[|actions|] == World(w.orders[id := SubmittedRow(PlainIntent(id, account, quantity))], w.live[id := quantity],
                                   w.holdings, Idle, Max(w.missed, w.pc.lost))
  {
    var intent := PlainIntent(id, account, quantity);
    PlainOrderAllowed(id, account, cap, w.pc.open, quantity);
    ws, actions := DecideRun(w, id, account, cap, quantity);
    var vs, more := ClaimRun(ws[|actions|], id, intent, account, CapPolicy(cap));
    ws, actions := Join(ws, actions, vs, more, account, CapPolicy(cap));
    vs, more := PlaceRun(ws[|actions|], account, CapPolicy(cap));
    ws, actions := Join(ws, actions, vs, more, account, CapPolicy(cap));
    assert w.orders[id := AuthorizedRow(NewRow(intent, None), "d")][id := SubmittedRow(intent)]
        == w.orders[id := SubmittedRow(intent)];
  }

  // ---------------------------------------------------------------- the first reads

  lemma {:induction false} CreateRun(a: string, b: string, account: string, cap: real, part: real)
    returns (ws: seq<World>, actions: seq<Action>)
    requires 0.0 < part <= cap && a != b
    ensures Exposure.Run(ws, actions, account, CapPolicy(cap)) && Start(ws[0], CapPolicy(cap))
    ensures ws[|actions|] == World(map[a := NewRow(PlainIntent(a, account, cap), None),
                                       b := NewRow(PlainIntent(b, account, part), None)], map[], map[], Idle, 0.0)
  {
    var p := CapPolicy(cap);
    PlainOrderAllowed(a, account, cap, 0.0, cap);
    PlainOrderAllowed(b, account, cap, 0.0, part);
    var w0 := World(map[], map[], map[], Idle, 0.0);
    var w1 := w0.(orders := map[a := NewRow(PlainIntent(a, account, cap), None)]);
    var w2 := w1.(orders := w1.orders[b := NewRow(PlainIntent(b, account, part), None)]);
    assert Next(w0, Create(PlainIntent(a, account, cap)), w1, account, p);
    assert Next(w1, Create(PlainIntent(b, account, part)), w2, account, p);
    ws, actions := [w0, w1, w2], [Create(PlainIntent(a, account, cap)), Create(PlainIntent(b, account, part))];
  }

  lemma {:induction false} OnlyOneOpen(orders: Table, id: string, account: string)
    requires id in orders && forall k <- orders :: k == id || !Counted(orders[k], account)
    requires Valued(orders[id], account)
    ensures OpenNotional(orders, account) == RowRisk(orders[id], account) && Reconstructible(orders, account)
  {
    var risks := Risks(orders, account);
    SumRemove(risks, id);
    SumNonNegative(risks - {id});
    SumNonPositive(risks - {id});
  }

  lemma {:induction false} ReadRun(w: World, a: string, account: string, p: Risk.Policy)
    returns (ws: seq<World>, actions: seq<Action>)
    requires w.pc == Idle && w.live == map[] && w.holdings == map[]
    requires a in w.orders && forall id <- w.orders :: !Counted(w.orders[id], account)
    ensures Exposure.Run(ws, actions, account, p) && ws[0] == w && ws[|actions|] == w.(pc := BothRead(0.0, 0.0, 0.0))
  {
    OnlyOneOpen(w.orders, a, account);
    var w1, w2 := w.(pc := GrossRead(0.0, map[])), w.(pc := BothRead(0.0, 0.0, 0.0));
    assert Losses(w.orders, map[], account) == map[];
    assert Next(w, ReadGross, w1, account, p);
    assert Next(w1, ReadOpen(0.0), w2, account, p);
    ws, actions := [w, w1, w2], [ReadGross, ReadOpen(0.0)];
  }

  // -------------------------------------------------------------- the raced reads

  /** What a reported part leaves of the row. */
  lemma {:induction false} FilledRisk(a: string, account: string, cap: real, part: real)
    requires 0.0 < part <= cap
    ensures var filled := FilledRow(PlainIntent(a, account, cap), part);
      RowRisk(filled, account) == cap - part && Valued(filled, account)
  {
    var filled := FilledRow(PlainIntent(a, account, cap), part);
    assert filled.progress.remaining == cap - part && UnitRisk(filled) == Some(1.0);
  }

  /** A report of a part that was executed is true. */
  lemma {:induction false} FillReported(a: string, account: string, cap: real, part: real)
    requires 0.0 < part <= cap
    ensures var intent := PlainIntent(a, account, cap); var r, report := SubmittedRow(intent), DoApplyFill(false, part, part);
      Truthful(r, Some(cap - part), report) && StepRow(r, report) == Some(FilledRow(intent, part))
  {
  }

  lemma {:induction false} FillMovesPart(a: string, cap: real, part: real, w: World)
    requires 0.0 < part <= cap && w.live == map[a := cap] && w.holdings == map[]
    ensures var h := map[Risk.ByConid(1) := part];
      && Gross(w.holdings) == 0.0 && Gross(h) == part
      && BrokerNext(w, Fill(a, part, Risk.ByConid(1), part), w.(live := map[a := cap - part], holdings := h))
  {
    var key := Risk.ByConid(1);
    var h: Holdings := map[key := part];
    assert (map k | k in h :: Abs(h[k])) == (map[])[key := part];
    SumUpdate(map[], key, part);
    assert w.live[a := w.live[a] - part] == map[a := cap - part];
  }

  lemma {:induction false} FillRun(w: World, a: string, account: string, cap: real, part: real)
    returns (ws: seq<World>, actions: seq<Action>)
    requires 0.0 < part <= cap && w.pc == Idle && w.holdings == map[] && w.live == map[a := cap]
    ensures Exposure.Run(ws, actions, account, CapPolicy(cap)) && ws[0] == w
    ensures ws[|actions|] == World(w.orders, map[a := cap - part], map[Risk.ByConid(1) := part],
                                   GrossRead(0.0, map[a := cap]), w.missed)
  {
    var w1 := w.(pc := GrossRead(0.0, w.live));
    var w2 := w1.(live := map[a := cap - part], holdings := map[Risk.ByConid(1) := part]);
    FillMovesPart(a, cap, part, w1);
    ws, actions := [w, w1, w2], [ReadGross, Fill(a, part, Risk.ByConid(1), part)];
  }

  lemma {:induction false} OneLost(orders: Table, a: string, cap: real, account: string)
    requires a in orders && RowRisk(orders[a], account) <= cap
    ensures Lost(orders, map[a := cap], account) == cap - RowRisk(orders[a], account)
  {
    var lost := cap - RowRisk(orders[a], account);
    assert Losses(orders, map[a := cap], account) == (map[])[a := lost];
    SumUpdate(map[], a, lost);
  }

  lemma {:induction false} ReportArrives(w: World, a: string, step: Step, r: Row, account: string, p: Risk.Policy)
    returns (ws: seq<World>, actions: seq<Action>)
    requires a in w.orders && Truthful(w.orders[a], Lookup(w.live, a), step) && StepRow(w.orders[a], step) == Some(r)
    ensures Exposure.Run(ws, actions, account, p) && ws[0] == w && ws[|actions|] == w.(orders := w.orders[a := r])
  {
    ws, actions := OneStep(w, Report(a, step), w.(orders := w.orders[a := r]), account, p);
  }

  /** The second read of a pair that has lost a part of an order; broker and ledger agree on what is left. */
  lemma {:induction false} OpenReadWithout(w: World, a: string, account: string, cap: real, part: real, p: Risk.Policy)
    returns (ws: seq<World>, actions: seq<Action>)
    requires 0.0 < part <= cap && w.pc == GrossRead(0.0, map[a := cap]) && a in w.orders
    requires Valued(w.orders[a], account) && RowRisk(w.orders[a], account) == cap - part
    requires forall id <- w.orders :: id == a || !Counted(w.orders[id], account)
    ensures Exposure.Run(ws, actions, account, p) && ws[0] == w
    ensures ws[|actions|] == w.(pc := BothRead(0.0, cap - part, part))
  {
    OnlyOneOpen(w.orders, a, account);
    OneLost(w.orders, a, cap, account);
    ws, actions := OneStep(w, ReadOpen(cap - part), w.(pc := BothRead(0.0, cap - part, part)), account, p);
  }

  lemma {:induction false} ReportRun(w: World, a: string, account: string, cap: real, part: real)
    returns (ws: seq<World>, actions: seq<Action>)
    requires 0.0 < part <= cap && w.pc == GrossRead(0.0, map[a := cap]) && a in w.orders && w.live == map[a := cap - part]
    requires w.orders[a] == SubmittedRow(PlainIntent(a, account, cap))
    requires forall id <- w.orders :: id == a || !Counted(w.orders[id], account)
    ensures Exposure.Run(ws, actions, account, CapPolicy(cap)) && ws[0] == w
    ensures ws[|actions|] == w.(orders := w.orders[a := FilledRow(PlainIntent(a, account, cap), part)],
                                pc := BothRead(0.0, cap - part, part))
  {
    var filled, report := FilledRow(PlainIntent(a, account, cap), part), DoApplyFill(false, part, part);
    FillReported(a, account, cap, part);
    FilledRisk(a, account, cap, part);
    assert Lookup(w.live, a) == Some(cap - part);
    ws, actions := ReportArrives(w, a, report, filled, account, CapPolicy(cap));
    var vs, more := OpenReadWithout(ws[|actions|], a, account, cap, part, CapPolicy(cap));
    ws, actions := Join(ws, actions, vs, more, account, CapPolicy(cap));
  }

  /** The gross value is read, a part fills and the fill is reported, then the open orders are read. */
  lemma {:induction false} RacedReadRun(w: World, a: string, account: string, cap: real, part: real)
    returns (ws: seq<World>, actions: seq<Action>)
    requires 0.0 < part <= cap && w.pc == Idle && w.holdings == map[] && a in w.orders && w.live == map[a := cap]
    requires w.orders[a] == SubmittedRow(PlainIntent(a, account, cap))
    requires forall id <- w.orders :: id == a || !Counted(w.orders[id], account)
    ensures Exposure.Run(ws, actions, account, CapPolicy(cap)) && ws[0] == w
    ensures ws[|actions|] == World(w.orders[a := FilledRow(PlainIntent(a, account, cap), part)], map[a := cap - part],
                                   map[Risk.ByConid(1) := part], BothRead(0.0, cap - part, part), w.missed)
  {
    ws, actions := FillRun(w, a, account, cap, part);
    var vs, more := ReportRun(ws[|actions|], a, account, cap, part);
    ws, actions := Join(ws, actions, vs, more, account, CapPolicy(cap));
  }

  // ------------------------------------------------------------------- the whole run

  lemma {:induction false} AboveTheCap(a: string, b: string, cap: real, part: real)
    requires a != b && 0.0 < part <= cap
    ensures Exposed(map[a := cap - part][b := part], map[Risk.ByConid(1) := part]) == cap + part
  {
    FillMovesPart(a, cap, part, World(map[], map[a := cap], map[], Idle, 0.0));
    SumUpdate(map[a := cap - part], b, part);
    SumUpdate(map[], a, cap - part);
    assert (map[])[a := cap - part] == map[a := cap - part];
  }

  /**
   A fill and its report, both between the two reads, let the exposure exceed the cap by the whole
   fill.  The bound `maxGross + missed` is reached for every cap and every part of it, and so,
   when the part is the whole order, is twice the cap.
   */
  lemma {:induction false} LostFillBreaksCap(a: string, b: string, account: string, cap: real, part: real)
    returns (ws: seq<World>, actions: seq<Action>)
    requires 0.0 < part <= cap && a != b
    ensures Exposure.Run(ws, actions, account, CapPolicy(cap)) && Start(ws[0], CapPolicy(cap))
    ensures var w := ws[|actions|];
      w.missed == part && Exposed(w.live, w.holdings) == CapPolicy(cap).maxGross + part
  {
    ws, actions := CreateRun(a, b, account, cap, part);
    var vs, more := ReadRun(ws[|actions|], a, account, CapPolicy(cap));
    ws, actions := Join(ws, actions, vs, more, account, CapPolicy(cap));
    vs, more := SubmitRun(ws[|actions|], a, account, cap, cap);
    ws, actions := Join(ws, actions, vs, more, account, CapPolicy(cap));
    vs, more := RacedReadRun(ws[|actions|], a, account, cap, part);
    ws, actions := Join(ws, actions, vs, more, account, CapPolicy(cap));
    vs, more := SubmitRun(ws[|actions|], b, account, cap, part);
    ws, actions := Join(ws, actions, vs, more, account, CapPolicy(cap));
    AboveTheCap(a, b, cap, part);
  }
}
