/**
 The exposure bound without any condition on the run.  What is live or promised to be live never
 exceeds the cap, so neither does what a read pair can lose sight of; positions and everything
 still executable stay within twice the cap.
 */
module ExposureCeiling {
  import opened Wrappers
  import opened Orders
  import opened OrderTable
  import opened OrderRuns
  import opened OpenRisk
  import opened Sums
  import opened Exposure
  import Risk

  /** Everything that may yet become a position. */
  ghost function Outstanding(w: World, account: string): real {
    Sum(w.live) + Sum(Unplaced(w.orders, w.live.Keys, account))
  }

  /** The open orders alone fit the cap, at every stage of a submission. */
  ghost predicate OpenFits(outstanding: real, pc: Pc, cap: real, missed: real) {
    && outstanding <= cap && missed <= cap
    && match pc
       case GrossRead(g, covered) => g >= 0.0 && Sum(covered) <= cap
       case BothRead(g, open, lost) => g >= 0.0 && outstanding <= open && lost <= cap
       case Approved(_, q) => outstanding + Notional(q) <= cap
       case _ => true
  }

  ghost predicate Ceiling(w: World, account: string, p: Risk.Policy) {
    OpenFits(Outstanding(w, account), w.pc, p.maxGross, w.missed)
  }

  lemma {:induction false} GrossNonNegative(h: Holdings)
    ensures Gross(h) >= 0.0
  {
    SumNonNegative(map k | k in h :: Abs(h[k]));
  }

  lemma {:induction false} OutstandingWrite(w: World, id: string, r: Row, account: string)
    ensures var more := if id in w.live then 0.0
                        else RowRisk(r, account) - if id in w.orders then RowRisk(w.orders[id], account) else 0.0;
      Outstanding(w.(orders := w.orders[id := r]), account) == Outstanding(w, account) + more
  {
    UnplacedWrite(w.orders, w.live.Keys, id, r, account);
  }

  lemma {:induction false} CreateFits(w: World, intent: Intent, account: string, p: Risk.Policy)
    requires Ceiling(w, account, p) && intent.clientOrderId !in w.orders
    ensures Ceiling(w.(orders := w.orders[intent.clientOrderId := NewRow(intent, None)]), account, p)
  {
    OutstandingWrite(w, intent.clientOrderId, NewRow(intent, None), account);
  }

  lemma {:induction false} ReportFits(w: World, a: Action, w': World, account: string, p: Risk.Policy)
    requires a.Report? && Inv(w, account, p) && Ceiling(w, account, p) && BrokerNext(w, a, w')
    ensures Ceiling(w', account, p)
  {
    var next := StepRow(w.orders[a.id], a.step);
    if next.Some? {
      assert Fits(w.orders, w.live, a.id, account);
      if a.id !in w.live { ReportKeepsRisk(w.orders[a.id], a.step, next.value, account); }
      OutstandingWrite(w, a.id, next.value, account);
    }
  }

  lemma {:induction false} LiveLowered(w: World, id: string, worth: real, w': World, account: string)
    requires id in w.live && w'.orders == w.orders && w'.live == w.live[id := w.live[id] - worth]
    ensures Outstanding(w', account) == Outstanding(w, account) - worth
  {
    SumUpdate(w.live, id, w.live[id] - worth);
    assert w'.live.Keys == w.live.Keys;
  }

  lemma {:induction false} ExecutionFits(w: World, a: Action, w': World, account: string, p: Risk.Policy)
    requires (a.Fill? || a.Shrink?) && Inv(w, account, p) && Ceiling(w, account, p) && BrokerNext(w, a, w')
    ensures Ceiling(w', account, p)
  {
    LiveLowered(w, a.id, a.worth, w', account);
    if a.Shrink? && w.pc.GrossRead? { SumUpdate(w.pc.covered, a.id, w.pc.covered[a.id] - a.worth); }
  }

  lemma {:induction false} GrossReadFits(w: World, account: string, p: Risk.Policy)
    requires Ceiling(w, account, p)
    ensures Ceiling(w.(pc := GrossRead(Gross(w.holdings), w.live)), account, p)
  {
    GrossNonNegative(w.holdings);
    SumNonNegative(Unplaced(w.orders, w.live.Keys, account));
  }

  /** A read pair cannot lose more than there was to see. */
  lemma {:induction false} LostIsCovered(orders: Table, covered: map<string, real>, account: string)
    requires covered.Keys <= orders.Keys && forall id <- covered :: covered[id] >= 0.0
    ensures Lost(orders, covered, account) <= Sum(covered)
  {
    SumLe(Losses(orders, covered, account), covered);
  }

  lemma {:induction false} CoveredNonNegative(w: World, account: string)
    requires RowsOk(w.orders, w.live, account) && w.pc.GrossRead?
    requires CoversFills(w.pc.gross, w.pc.covered, Gross(w.holdings), w.live)
    ensures w.pc.covered.Keys <= w.orders.Keys && forall id <- w.pc.covered :: w.pc.covered[id] >= 0.0
  {
    EachLiveIsCounted(w.orders, w.live, account);
  }

  lemma {:induction false} OpenReadFits(w: World, brokerOpen: real, account: string, p: Risk.Policy)
    requires w.pc.GrossRead? && Inv(w, account, p) && Ceiling(w, account, p)
    ensures Ceiling(w.(pc := BothRead(w.pc.gross, Max(brokerOpen, OpenNotional(w.orders, account)),
                                      Lost(w.orders, w.pc.covered, account))), account, p)
  {
    CoveredNonNegative(w, account);
    LostIsCovered(w.orders, w.pc.covered, account);
    LedgerCoversLive(w.orders, w.live, account);
    RebuiltSplits(w.orders, w.live.Keys, account);
  }

  lemma {:induction false} DecideFits(w: World, a: Action, account: string, p: Risk.Policy)
    requires a.Decide? && Inv(w, account, p) && Ceiling(w, account, p) && OpenedFor(w.orders, a.intent)
    requires w.pc.BothRead? && a.snapshot.gross == w.pc.gross && a.snapshot.openOrders == w.pc.open
    ensures Ceiling(DecideNext(w, a, p), account, p)
  {
    var id := a.intent.clientOrderId;
    assert Fits(w.orders, w.live, id, account);
    assert a.intent.request == w.orders[id].request;
    if Allows(Risk.Authorize(a.intent, a.snapshot, a.quote, p, a.now, a.liveMode, 1, 1)) {
      ApprovedNotional(a.intent, a.snapshot, a.quote, p, a.now, a.liveMode);
      AuthorizedRowRisk(w.orders[id], a.decision, account);
      OutstandingWrite(w, id, AuthorizedRow(w.orders[id], a.decision), account);
    }
  }

  lemma {:induction false} ClaimFits(w: World, attempt: string, at: int, account: string, p: Risk.Policy)
    requires w.pc.Approved? && Inv(w, account, p) && Ceiling(w, account, p) && w.orders[w.pc.id].state == Authorized
    ensures var claimed := ClaimSubmission(w.orders[w.pc.id], attempt, at).value;
      Ceiling(w.(orders := w.orders[w.pc.id := claimed], pc := Claimed(w.pc.id, w.pc.request)), account, p)
  {
    var r := w.orders[w.pc.id];
    assert Fits(w.orders, w.live, w.pc.id, account) && Fresh(r.state);
    ClaimedRowOk(r, attempt, at, account);
    OutstandingWrite(w, w.pc.id, ClaimSubmission(r, attempt, at).value, account);
  }

  lemma {:induction false} PlaceFits(w: World, account: string, p: Risk.Policy)
    requires w.pc.Claimed? && Inv(w, account, p) && Ceiling(w, account, p)
    ensures Ceiling(w.(live := w.live[w.pc.id := Notional(w.pc.request)], pc := Idle), account, p)
  {
    var id, q := w.pc.id, w.pc.request;
    assert Fits(w.orders, w.live, id, account);
    ClaimedIsCounted(w.orders[id], account);
    SumUpdate(w.live, id, Notional(q));
    assert w.live[id := Notional(q)].Keys == w.live.Keys + {id};
    UnplacedPlace(w.orders, w.live.Keys, id, account);
  }

  lemma {:induction false} ProcessFits(w: World, a: Action, w': World, account: string, p: Risk.Policy)
    requires FromProcess(a) && Inv(w, account, p) && Ceiling(w, account, p) && SubmitNext(w, a, w', account, p)
    ensures Ceiling(w', account, p)
  {
    match a
    case Create(intent) => CreateFits(w, intent, account, p);
    case ReadGross => GrossReadFits(w, account, p);
    case ReadOpen(brokerOpen) => OpenReadFits(w, brokerOpen, account, p);
    case Decide(_, _, _, _, _, _) => DecideFits(w, a, account, p);
    case Claim(attempt, at) => if w.orders[w.pc.id].state == Authorized { ClaimFits(w, attempt, at, account, p); }
    case Place(received) => if received { PlaceFits(w, account, p); }
    case Abort =>
  }

  lemma {:induction false} StepFits(w: World, a: Action, w': World, account: string, p: Risk.Policy)
    requires Inv(w, account, p) && Ceiling(w, account, p) && Next(w, a, w', account, p)
    ensures Ceiling(w', account, p)
  {
    if FromProcess(a) {
      ProcessFits(w, a, w', account, p);
    } else if a.Report? {
      ReportFits(w, a, w', account, p);
    } else {
      ExecutionFits(w, a, w', account, p);
    }
  }

  lemma {:induction false} RunFits(ws: seq<World>, actions: seq<Action>, account: string, p: Risk.Policy, i: nat)
    requires Exposure.Run(ws, actions, account, p) && Start(ws[0], p) && i < |ws|
    ensures Ceiling(ws[i], account, p)
    decreases i
  {
    if i > 0 {
      RunFits(ws, actions, account, p, i - 1);
      RunKeeps(ws, actions, account, p, i - 1);
      assert Next(ws[i - 1], actions[i - 1], ws[i], account, p);
      StepFits(ws[i - 1], actions[i - 1], ws[i], account, p);
    } else {
      GrossNonNegative(ws[0].holdings);
      assert Unplaced(ws[0].orders, {}, account) == map[];
    }
  }

  /**
   In every run, whatever the reads miss: open and promised orders stay within the gross cap, no
   read pair loses sight of more than the cap, and exposure stays within twice the cap.
   */
  lemma {:induction false} ExposureAtMostTwiceCap(
    ws: seq<World>, actions: seq<Action>, account: string, p: Risk.Policy, i: nat)
    requires Exposure.Run(ws, actions, account, p) && Start(ws[0], p) && i < |ws|
    ensures Outstanding(ws[i], account) <= p.maxGross && ws[i].missed <= p.maxGross
    ensures Exposed(ws[i].live, ws[i].holdings) <= 2.0 * p.maxGross
  {
    RunFits(ws, actions, account, p, i);
    ExposureIsBounded(ws, actions, account, p, i);
  }
}
