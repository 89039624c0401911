/**
 The exposure bound over whole runs.  One process holds the lease and submits one order at a
 time: it reads the broker's gross position value, then the open-order notional, decides,
 claims and places.  Meanwhile the broker fills and cancels, and its reports, late but true,
 reach the ledger.  `live` is the notional, at the limit price, that the broker can still
 execute of each order it received; `missed` is the most that a read pair behind an approval had
 lost sight of.
 */
module Exposure {
  import opened Wrappers
  import opened Orders
  import opened OrderTable
  import opened OrderRuns
  import opened OpenRisk
  import opened Sums
  import Placement
  import Risk

  /**
   Where the submitting call stands.  `covered` is what was live when the gross value was read and
   has not been cancelled since; `lost` is what of it the ledger no longer counted when the open
   orders were read.
   */
  datatype Pc =
    | Idle
    | GrossRead(gross: real, covered: map<string, real>)
    | BothRead(gross: real, open: real, lost: real)
    | Approved(id: string, request: Request)
    | Claimed(id: string, request: Request)

  type Holdings = map<Risk.InstrumentKey, real>

  datatype World = World(orders: Table, live: map<string, real>, holdings: Holdings, pc: Pc, missed: real)

  datatype Action =
    | Create(intent: Intent)
    | ReadGross
    | ReadOpen(brokerOpen: real)
    | Decide(intent: Intent, snapshot: Risk.Account, quote: Risk.Quote, now: int, liveMode: bool, decision: string)
    | Claim(attempt: string, at: int)
    | Place(received: bool)
    | Abort
    | Fill(id: string, worth: real, key: Risk.InstrumentKey, value: real)
    | Shrink(id: string, worth: real)
    | Report(id: string, step: Step)

  /** A plain limit order with the default multiplier. */
  predicate PlainRequest(q: Request) {
    && q.orderType == Lmt && q.limitPrice.Some? && q.limitPrice.value > 0.0 && q.quantity > 0.0
    && q.instrument.assetType != Combo && !q.reduceOnly && !q.whatIf
    && (q.instrument.multiplier.Some? ==> q.instrument.multiplier.value == DefaultMultiplier(q.instrument.assetType))
  }

  function Unit(q: Request): real {
    if q.limitPrice.Some? then q.limitPrice.value * DefaultMultiplier(q.instrument.assetType) else 0.0
  }

  /** Notional of a part of the order at its limit price. */
  function Worth(q: Request, quantity: real): real { quantity * Unit(q) }

  function Notional(q: Request): real { Worth(q, q.quantity) }

  predicate PlainRow(r: Row) {
    && PlainRequest(r.request) && r.columns == ColumnsOf(r.request)
    && r.pendingRequest.None? && r.pendingHash.None?
    && r.id.intentHash.request == r.request && r.id.assetType == r.request.instrument.assetType
  }

  /** What the broker says about an order it has received is, or once was, true. */
  predicate Truthful(r: Row, live: Option<real>, step: Step) {
    match step
    case DoTransition(target, reported, _, _) =>
      && (reported.Some? ==> live.Some? && live.value <= Worth(r.request, reported.value.remaining))
      && (Terminal(target) ==> if live.Some? then live.value == 0.0 else Fresh(r.state))
      && target != Submitting && target != ReplacePending
    case DoApplyStatus(target, st, _) =>
      && live.Some? && target == LifecycleFromStatus(st) && live.value <= Worth(r.request, st.remaining)
      && (Terminal(target) ==> live.value == 0.0)
    case DoApplyFill(_, quantity, _) =>
      live.Some? && live.value <= Worth(r.request, Max(0.0, r.columns.quantity - quantity))
    case DoClaimCancellation(_, _, _) => true
    case DoMarkExpired(_) => true
    case DoBindClient(_) => true
    case DoClaimSubmission(_, _) => false
    case DoClaimReplacement(_, _, _, _, _, _) => false
  }

  ghost function Gross(h: Holdings): real { Sum(map k | k in h :: Abs(h[k])) }

  /** Positions the account has plus positions its live orders could still add. */
  ghost function Exposed(live: map<string, real>, h: Holdings): real { Gross(h) + Sum(live) }

  /** Counted by the ledger for orders the broker has not received. */
  function Unplaced(orders: Table, placed: set<string>, account: string): map<string, real> {
    map id | id in orders && id !in placed :: RowRisk(orders[id], account)
  }

  /** Counted by the ledger for orders the broker has received. */
  function Counts(orders: Table, placed: set<string>, account: string): map<string, real> {
    map id | id in orders && id in placed :: RowRisk(orders[id], account)
  }

  /** Everything that is, or may yet become, a position. */
  ghost function Promised(w: World, account: string): real {
    Exposed(w.live, w.holdings) + Sum(Unplaced(w.orders, w.live.Keys, account))
  }

  /** How much of `covered` the ledger counts no longer. */
  function Losses(orders: Table, covered: map<string, real>, account: string): map<string, real> {
    map id | id in covered && id in orders :: Max(0.0, covered[id] - RowRisk(orders[id], account))
  }

  ghost function Lost(orders: Table, covered: map<string, real>, account: string): real {
    Sum(Losses(orders, covered, account))
  }

  function Shrunk(pc: Pc, id: string, worth: real): Pc {
    if pc.GrossRead? && id in pc.covered then pc.(covered := pc.covered[id := pc.covered[id] - worth]) else pc
  }

  predicate Allows(verdict: Result<Risk.Authorization, Risk.RiskError>) {
    verdict.Ok? && verdict.value.code == Risk.Allow
  }

  /** The row of the intent is there and has not been offered to the broker. */
  predicate OpenedFor(orders: Table, intent: Intent) {
    && intent.clientOrderId in orders && orders[intent.clientOrderId].id.intentHash == HashOf(intent)
    && Fresh(orders[intent.clientOrderId].state)
  }

  function AuthorizedRow(r: Row, decision: string): Row
    requires Fresh(r.state)
  {
    if r.state == IntentPersisted then Transition(r, Authorized, None, Some(decision), None).value else r
  }

  function DecideNext(w: World, a: Action, p: Risk.Policy): World
    requires a.Decide? && OpenedFor(w.orders, a.intent) && w.pc.BothRead?
  {
    var id := a.intent.clientOrderId;
    if Allows(Risk.Authorize(a.intent, a.snapshot, a.quote, p, a.now, a.liveMode, 1, 1))
    then w.(orders := w.orders[id := AuthorizedRow(w.orders[id], a.decision)], pc := Approved(id, a.intent.request),
            missed := Max(w.missed, w.pc.lost))
    else w.(pc := Idle)
  }

  /** Steps of the process that holds the lease. */
  ghost predicate SubmitNext(w: World, a: Action, w': World, account: string, p: Risk.Policy)
    requires FromProcess(a)
  {
    match a
    case Create(intent) =>
      && PlainRequest(intent.request) && intent.request.account == account && intent.clientOrderId !in w.orders
      && w' == w.(orders := w.orders[intent.clientOrderId := NewRow(intent, None)])
    case ReadGross => w.pc == Idle && w' == w.(pc := GrossRead(Gross(w.holdings), w.live))
    case ReadOpen(brokerOpen) =>
      && w.pc.GrossRead? && Reconstructible(w.orders, account)
      && w' == w.(pc := BothRead(w.pc.gross, Max(brokerOpen, OpenNotional(w.orders, account)),
                                 Lost(w.orders, w.pc.covered, account)))
    case Decide(intent, snapshot, _, _, _, _) =>
      && w.pc.BothRead? && snapshot.gross == w.pc.gross && snapshot.openOrders == w.pc.open
      && OpenedFor(w.orders, intent) && w' == DecideNext(w, a, p)
    case Claim(attempt, at) =>
      && w.pc.Approved? && w.pc.id in w.orders
      && var claimed := ClaimSubmission(w.orders[w.pc.id], attempt, at);
         w' == if claimed.Some?
               then w.(orders := w.orders[w.pc.id := claimed.value], pc := Claimed(w.pc.id, w.pc.request))
               else w.(pc := Idle)
    case Place(received) =>
      && w.pc.Claimed?
      && w' == if received then w.(live := w.live[w.pc.id := Notional(w.pc.request)], pc := Idle) else w.(pc := Idle)
    case Abort => w' == w.(pc := Idle)
  }

  /** Steps of the broker, and its reports reaching the ledger. */
  ghost predicate BrokerNext(w: World, a: Action, w': World)
    requires !FromProcess(a)
  {
    match a
    case Fill(id, worth, key, value) =>
      // At its own limit price, or at any price with no larger notional.
      && id in w.live && 0.0 < worth <= w.live[id] && Abs(value) <= worth
      && w' == w.(live := w.live[id := w.live[id] - worth],
                  holdings := w.holdings[key := Get(w.holdings, key) + value])
    case Shrink(id, worth) =>
      && id in w.live && 0.0 < worth <= w.live[id]
      && w' == w.(live := w.live[id := w.live[id] - worth], pc := Shrunk(w.pc, id, worth))
    case Report(id, step) =>
      && id in w.orders && Truthful(w.orders[id], Lookup(w.live, id), step)
      && w' == w.(orders := Placement.RowOr(w.orders, id, StepRow(w.orders[id], step)))
  }

  predicate FromProcess(a: Action) { !a.Fill? && !a.Shrink? && !a.Report? }

  ghost predicate Next(w: World, a: Action, w': World, account: string, p: Risk.Policy) {
    if FromProcess(a) then SubmitNext(w, a, w', account, p) else BrokerNext(w, a, w')
  }

  // ------------------------------------------------------------------ the invariant

  /** A row and what is live of it at the broker. */
  predicate RowOk(r: Row, live: Option<real>, account: string) {
    && PlainRow(r) && r.id.account == account
    && match live
       case Some(l) =>
         && 0.0 <= l <= Worth(r.request, r.progress.remaining) && !Fresh(r.state)
         && (l > 0.0 ==> !Terminal(r.state) && r.journal.submissionStarted.Some?)
       case None => r.progress.remaining == r.request.quantity && r.links.orderId.None?
  }

  ghost predicate RowsOk(orders: Table, live: map<string, real>, account: string) {
    && live.Keys <= orders.Keys
    && forall id {:trigger Fits(orders, live, id, account)} | id in orders :: Fits(orders, live, id, account)
  }

  predicate Fits(orders: Table, live: map<string, real>, id: string, account: string)
    requires id in orders
  {
    RowOk(orders[id], Lookup(live, id), account)
  }

  /** The order in hand is the row it was decided for. */
  predicate InHand(orders: Table, live: map<string, real>, pc: Pc) {
    match pc
    case Approved(id, q) => id in orders && orders[id].request == q
    case Claimed(id, q) => id in orders && orders[id].request == q && id !in live && ClaimedState(orders[id])
    case _ => true
  }

  predicate ClaimedState(r: Row) { !Fresh(r.state) && !Terminal(r.state) && r.journal.submissionStarted.Some? }

  /** What has been promised fits, but for what the reads had missed. */
  ghost predicate RoomOk(promised: real, gross: real, live: map<string, real>, pc: Pc, cap: real, missed: real) {
    && missed >= 0.0 && promised <= cap + missed
    && match pc
       case GrossRead(g, covered) => CoversFills(g, covered, gross, live)
       case BothRead(g, open, lost) => lost >= 0.0 && promised <= g + open + lost
       case Approved(_, q) => promised + Notional(q) <= cap + missed
       case _ => true
  }

  /** Since the gross value was read, it grew by no more than what has left the live orders by fills. */
  ghost predicate CoversFills(g: real, covered: map<string, real>, gross: real, live: map<string, real>) {
    && covered.Keys == live.Keys && (forall id <- live :: live[id] <= covered[id])
    && gross <= g + Sum(covered) - Sum(live)
  }

  ghost predicate Inv(w: World, account: string, p: Risk.Policy) {
    && RowsOk(w.orders, w.live, account)
    && InHand(w.orders, w.live, w.pc)
    && RoomOk(Promised(w, account), Gross(w.holdings), w.live, w.pc, p.maxGross, w.missed)
  }

  // -------------------------------------------------------------------- row effects

  lemma {:induction false} StatusKeepsRow(r: Row, live: Option<real>, step: Step, account: string)
    requires step.DoApplyStatus? && RowOk(r, live, account) && Truthful(r, live, step)
    ensures var r' := ApplyStatus(r, step.target, step.st, step.settle);
      live.Some? && RowOk(r', live, account) && r'.request == r.request
  {
  }

  lemma {:induction false} FillKeepsRow(r: Row, live: Option<real>, step: Step, account: string)
    requires step.DoApplyFill? && RowOk(r, live, account) && Truthful(r, live, step)
    ensures var r' := ApplyFill(r, step.corrects, step.liveQuantity, step.liveValue);
      live.Some? && RowOk(r', live, account) && r'.request == r.request
  {
  }

  /** True reports keep the ledger's remaining quantity above what is live. */
  lemma {:induction false} ReportKeepsRow(r: Row, live: Option<real>, step: Step, r': Row, account: string)
    requires RowOk(r, live, account) && Truthful(r, live, step) && StepRow(r, step) == Some(r')
    ensures RowOk(r', live, account) && r'.request == r.request
    ensures live.None? && ClaimedState(r) ==> ClaimedState(r')
  {
    if step.DoApplyStatus? {
      StatusKeepsRow(r, live, step, account);
    } else if step.DoApplyFill? {
      FillKeepsRow(r, live, step, account);
    }
  }

  /** An order the broker has not received never comes to count for more by itself. */
  lemma {:induction false} ReportKeepsRisk(r: Row, step: Step, r': Row, account: string)
    requires RowOk(r, None, account) && Truthful(r, None, step) && StepRow(r, step) == Some(r')
    ensures RowRisk(r', account) <= RowRisk(r, account)
  {
    assert r'.progress == r.progress && r'.columns == r.columns && r'.id == r.id && r'.request == r.request;
    assert r'.journal.submissionStarted == r.journal.submissionStarted && (Terminal(r.state) ==> Terminal(r'.state));
    SameTermsSameRisk(r, r', account);
  }

  lemma {:induction false} SameTermsSameRisk(r: Row, r': Row, account: string)
    requires r'.progress == r.progress && r'.columns == r.columns && r'.id == r.id && r'.request == r.request
    requires Counted(r', account) ==> Counted(r, account)
    ensures RowRisk(r', account) <= RowRisk(r, account)
  {
    assert UnitRisk(r') == UnitRisk(r);
  }

  lemma {:induction false} RowWritten(orders: Table, live: map<string, real>, id: string, r: Row, account: string)
    requires RowsOk(orders, live, account) && RowOk(r, Lookup(live, id), account)
    ensures RowsOk(orders[id := r], live, account)
  {
    var orders' := orders[id := r];
    forall k | k in orders' ensures Fits(orders', live, k, account) {
      if k != id { assert Fits(orders, live, k, account); }
    }
  }

  lemma {:induction false} LiveWritten(orders: Table, live: map<string, real>, id: string, l: real, account: string)
    requires RowsOk(orders, live, account) && id in orders && RowOk(orders[id], Some(l), account)
    ensures RowsOk(orders, live[id := l], account)
  {
    var live' := live[id := l];
    forall k | k in orders ensures Fits(orders, live', k, account) {
      if k != id { assert Fits(orders, live, k, account); }
    }
  }

  lemma {:induction false} LiveIsCounted(r: Row, l: real, account: string)
    requires RowOk(r, Some(l), account)
    ensures 0.0 <= l <= RowRisk(r, account)
  {
    if l > 0.0 {
      var unit := Unit(r.request);
      assert unit > 0.0 && UnitRisk(r) == Some(unit);
      PositiveFactor(r.progress.remaining, unit);
    }
  }

  lemma {:induction false} PositiveFactor(a: real, b: real)
    requires b > 0.0 && a * b > 0.0
    ensures a > 0.0
  {
    assert a * b > 0.0 * b;
  }

  /** A claimed order the broker has not received counts with its whole notional. */
  lemma {:induction false} ClaimedIsCounted(r: Row, account: string)
    requires RowOk(r, None, account) && ClaimedState(r)
    ensures RowRisk(r, account) == Notional(r.request) > 0.0
  {
    assert UnitRisk(r) == Some(Unit(r.request)) && Unit(r.request) > 0.0;
  }

  // ------------------------------------------------------------------- sums of rows

  lemma {:induction false} UnplacedWrite(orders: Table, placed: set<string>, id: string, r: Row, account: string)
    ensures Sum(Unplaced(orders[id := r], placed, account)) == Sum(Unplaced(orders, placed, account))
      + if id in placed then 0.0 else RowRisk(r, account) - if id in orders then RowRisk(orders[id], account) else 0.0
  {
    var before, after := Unplaced(orders, placed, account), Unplaced(orders[id := r], placed, account);
    if id in placed {
      assert after == before;
    } else {
      assert after == before[id := RowRisk(r, account)];
      SumUpdate(before, id, RowRisk(r, account));
    }
  }

  lemma {:induction false} UnplacedPlace(orders: Table, placed: set<string>, id: string, account: string)
    requires id in orders && id !in placed
    ensures Sum(Unplaced(orders, placed + {id}, account))
         == Sum(Unplaced(orders, placed, account)) - RowRisk(orders[id], account)
  {
    var before := Unplaced(orders, placed, account);
    assert Unplaced(orders, placed + {id}, account) == before - {id};
    SumRemove(before, id);
  }

  /** The ledger's rebuilt notional is what it counts for received and for other orders. */
  lemma {:induction false} RebuiltSplits(orders: Table, placed: set<string>, account: string)
    ensures OpenNotional(orders, account)
         == Sum(Counts(orders, placed, account)) + Sum(Unplaced(orders, placed, account))
  {
    SumSplit(Risks(orders, account), Counts(orders, placed, account), Unplaced(orders, placed, account));
  }

  lemma {:induction false} LostOf(covered: real, counted: real)
    ensures 0.0 <= Max(0.0, covered - counted) && covered <= counted + Max(0.0, covered - counted)
    ensures Max(0.0, covered - counted) == 0.0 <==> covered <= counted
  {
  }

  /** What was covered is counted still, or lost. */
  lemma {:induction false} CoveredOrLost(orders: Table, covered: map<string, real>, account: string)
    requires covered.Keys <= orders.Keys
    ensures Lost(orders, covered, account) >= 0.0
    ensures Sum(covered) <= Sum(Counts(orders, covered.Keys, account)) + Lost(orders, covered, account)
  {
    var counts, losses := Counts(orders, covered.Keys, account), Losses(orders, covered, account);
    assert counts.Keys == covered.Keys && losses.Keys == covered.Keys;
    forall k | k in covered ensures covered[k] <= counts[k] + losses[k] && losses[k] >= 0.0 {
      LostOf(covered[k], counts[k]);
    }
    SumNonNegative(losses);
    SumLeAdd(counts, losses, covered);
  }

  lemma {:induction false} EachLiveIsCounted(orders: Table, live: map<string, real>, account: string)
    requires RowsOk(orders, live, account)
    ensures forall id | id in live :: id in orders && 0.0 <= live[id] <= RowRisk(orders[id], account)
  {
    forall id | id in live ensures id in orders && 0.0 <= live[id] <= RowRisk(orders[id], account) {
      assert Fits(orders, live, id, account);
      LiveIsCounted(orders[id], live[id], account);
    }
  }

  /** The ledger never counts less than the broker can still execute. */
  lemma {:induction false} LedgerCoversLive(orders: Table, live: map<string, real>, account: string)
    requires RowsOk(orders, live, account)
    ensures Sum(live) <= Sum(Counts(orders, live.Keys, account)) <= OpenNotional(orders, account)
  {
    EachLiveIsCounted(orders, live, account);
    SumLe(live, Counts(orders, live.Keys, account));
    RebuiltSplits(orders, live.Keys, account);
    SumNonNegative(Unplaced(orders, live.Keys, account));
  }

  lemma {:induction false} NothingLost(orders: Table, live: map<string, real>, account: string)
    requires RowsOk(orders, live, account)
    ensures Lost(orders, live, account) == 0.0
  {
    EachLiveIsCounted(orders, live, account);
    LosesNothingIff(orders, live, account);
  }

  // --------------------------------------------------------------------- the steps

  lemma {:induction false} RowReplaced(w: World, id: string, r: Row, account: string, p: Risk.Policy)
    requires Inv(w, account, p) && id in w.orders && RowOk(r, Lookup(w.live, id), account)
    requires r.request == w.orders[id].request
    requires id !in w.live ==> RowRisk(r, account) <= RowRisk(w.orders[id], account)
    requires id !in w.live && ClaimedState(w.orders[id]) ==> ClaimedState(r)
    ensures Inv(w.(orders := w.orders[id := r]), account, p)
  {
    RowWritten(w.orders, w.live, id, r, account);
    HandKept(w.orders, w.live, w.pc, id, r);
    UnplacedWrite(w.orders, w.live.Keys, id, r, account);
  }

  lemma {:induction false} HandKept(orders: Table, live: map<string, real>, pc: Pc, id: string, r: Row)
    requires InHand(orders, live, pc) && id in orders && r.request == orders[id].request
    requires id !in live && ClaimedState(orders[id]) ==> ClaimedState(r)
    ensures InHand(orders[id := r], live, pc)
  {
  }

  lemma {:induction false} ReportKeeps(w: World, id: string, step: Step, r: Row, account: string, p: Risk.Policy)
    requires Inv(w, account, p) && id in w.orders && Truthful(w.orders[id], Lookup(w.live, id), step)
    requires StepRow(w.orders[id], step) == Some(r)
    ensures Inv(w.(orders := w.orders[id := r]), account, p)
  {
    assert Fits(w.orders, w.live, id, account);
    ReportKeepsRow(w.orders[id], Lookup(w.live, id), step, r, account);
    if id !in w.live { ReportKeepsRisk(w.orders[id], step, r, account); }
    RowReplaced(w, id, r, account, p);
  }

  lemma {:induction false} CreateKeeps(w: World, intent: Intent, account: string, p: Risk.Policy)
    requires Inv(w, account, p)
    requires PlainRequest(intent.request) && intent.request.account == account && intent.clientOrderId !in w.orders
    ensures Inv(w.(orders := w.orders[intent.clientOrderId := NewRow(intent, None)]), account, p)
  {
    RowWritten(w.orders, w.live, intent.clientOrderId, NewRow(intent, None), account);
    UnplacedWrite(w.orders, w.live.Keys, intent.clientOrderId, NewRow(intent, None), account);
  }

  /** The read pair accounts for everything promised, but for what it lost. */
  lemma {:induction false} ReadsCover(w: World, account: string)
    requires RowsOk(w.orders, w.live, account) && w.pc.GrossRead?
    requires CoversFills(w.pc.gross, w.pc.covered, Gross(w.holdings), w.live)
    ensures Lost(w.orders, w.pc.covered, account) >= 0.0
    ensures Promised(w, account)
         <= w.pc.gross + OpenNotional(w.orders, account) + Lost(w.orders, w.pc.covered, account)
  {
    CoveredOrLost(w.orders, w.pc.covered, account);
    RebuiltSplits(w.orders, w.live.Keys, account);
  }

  lemma {:induction false} PlainNotional(q: Request, quote: Risk.Quote)
    requires PlainRequest(q)
    ensures Risk.Multiplier(q.instrument) == Ok(DefaultMultiplier(q.instrument.assetType))
    ensures Risk.ReferencePrice(q, quote) == Ok(q.limitPrice.value)
    ensures Risk.RiskNotional(q, q.limitPrice.value, DefaultMultiplier(q.instrument.assetType)).Ok?
    ensures Risk.RiskNotional(q, q.limitPrice.value, DefaultMultiplier(q.instrument.assetType)).value == Notional(q)
  {
    assert q.quantity * q.limitPrice.value * DefaultMultiplier(q.instrument.assetType) == q.quantity * Unit(q);
  }

  lemma {:induction false} ApprovedNotional(
    intent: Intent, a: Risk.Account, quote: Risk.Quote, p: Risk.Policy, now: int, liveMode: bool)
    requires Allows(Risk.Authorize(intent, a, quote, p, now, liveMode, 1, 1)) && PlainRequest(intent.request)
    ensures a.gross + a.openOrders + Notional(intent.request) <= p.maxGross
  {
    PlainNotional(intent.request, quote);
    Risk.ApprovalFits(intent, a, quote, p, now, liveMode, 1, 1);
  }

  lemma {:induction false} AuthorizedRowOk(r: Row, decision: string, live: Option<real>, account: string)
    requires RowOk(r, live, account) && Fresh(r.state)
    ensures RowOk(AuthorizedRow(r, decision), live, account) && AuthorizedRow(r, decision).request == r.request
  {
  }

  lemma {:induction false} AuthorizedRowRisk(r: Row, decision: string, account: string)
    requires Fresh(r.state)
    ensures RowRisk(AuthorizedRow(r, decision), account) <= RowRisk(r, account)
  {
    SameTermsSameRisk(r, AuthorizedRow(r, decision), account);
  }

  lemma {:induction false} DecideKeeps(w: World, a: Action, account: string, p: Risk.Policy)
    requires a.Decide? && Inv(w, account, p) && OpenedFor(w.orders, a.intent)
    requires w.pc.BothRead? && a.snapshot.gross == w.pc.gross && a.snapshot.openOrders == w.pc.open
    ensures Inv(DecideNext(w, a, p), account, p)
  {
    var id := a.intent.clientOrderId;
    assert Fits(w.orders, w.live, id, account);
    assert a.intent.request == w.orders[id].request;
    if Allows(Risk.Authorize(a.intent, a.snapshot, a.quote, p, a.now, a.liveMode, 1, 1)) {
      var r := AuthorizedRow(w.orders[id], a.decision);
      ApprovedNotional(a.intent, a.snapshot, a.quote, p, a.now, a.liveMode);
      AuthorizedRowOk(w.orders[id], a.decision, Lookup(w.live, id), account);
      AuthorizedRowRisk(w.orders[id], a.decision, account);
      RowWritten(w.orders, w.live, id, r, account);
      UnplacedWrite(w.orders, w.live.Keys, id, r, account);
    }
  }

  lemma {:induction false} ClaimedRowOk(r: Row, attempt: string, at: int, account: string)
    requires RowOk(r, None, account) && r.state == Authorized
    ensures var claimed := ClaimSubmission(r, attempt, at).value;
      && RowOk(claimed, None, account) && ClaimedState(claimed) && claimed.request == r.request
      && RowRisk(claimed, account) == Notional(r.request)
  {
    ClaimedIsCounted(ClaimSubmission(r, attempt, at).value, account);
  }

  lemma {:induction false} ClaimKeeps(w: World, attempt: string, at: int, account: string, p: Risk.Policy)
    requires w.pc.Approved? && Inv(w, account, p) && w.orders[w.pc.id].state == Authorized
    ensures var claimed := ClaimSubmission(w.orders[w.pc.id], attempt, at).value;
      Inv(w.(orders := w.orders[w.pc.id := claimed], pc := Claimed(w.pc.id, w.pc.request)), account, p)
  {
    var r := w.orders[w.pc.id];
    assert Fits(w.orders, w.live, w.pc.id, account) && Fresh(r.state);
    ClaimedRowOk(r, attempt, at, account);
    RowWritten(w.orders, w.live, w.pc.id, ClaimSubmission(r, attempt, at).value, account);
    UnplacedWrite(w.orders, w.live.Keys, w.pc.id, ClaimSubmission(r, attempt, at).value, account);
  }

  lemma {:induction false} PlaceKeeps(w: World, account: string, p: Risk.Policy)
    requires w.pc.Claimed? && Inv(w, account, p)
    ensures Inv(w.(live := w.live[w.pc.id := Notional(w.pc.request)], pc := Idle), account, p)
  {
    var id, q := w.pc.id, w.pc.request;
    assert Fits(w.orders, w.live, id, account);
    ClaimedIsCounted(w.orders[id], account);
    LiveWritten(w.orders, w.live, id, Notional(q), account);
    SumUpdate(w.live, id, Notional(q));
    assert w.live[id := Notional(q)].Keys == w.live.Keys + {id};
    UnplacedPlace(w.orders, w.live.Keys, id, account);
  }

  lemma {:induction false} GrossMoves(h: Holdings, key: Risk.InstrumentKey, value: real)
    ensures Gross(h[key := Get(h, key) + value]) <= Gross(h) + Abs(value)
  {
    var m := map k | k in h :: Abs(h[k]);
    var h' := h[key := Get(h, key) + value];
    assert (map k | k in h' :: Abs(h'[k])) == m[key := Abs(h'[key])];
    SumUpdate(m, key, Abs(h'[key]));
  }

  lemma {:induction false} ExecutedRows(
    orders: Table, live: map<string, real>, id: string, worth: real, account: string)
    requires RowsOk(orders, live, account) && id in live && 0.0 < worth <= live[id]
    ensures RowsOk(orders, live[id := live[id] - worth], account)
  {
    assert Fits(orders, live, id, account);
    LiveWritten(orders, live, id, live[id] - worth, account);
  }

  /** A fill moves at most its own notional from the live orders into the positions. */
  lemma {:induction false} FilledRoom(
    promised: real, gross: real, gross': real, live: map<string, real>, id: string, worth: real, pc: Pc, cap: real,
    missed: real)
    requires RoomOk(promised, gross, live, pc, cap, missed) && id in live && 0.0 < worth && gross' <= gross + worth
    ensures RoomOk(promised - gross - worth + gross', gross', live[id := live[id] - worth], pc, cap, missed)
  {
    SumUpdate(live, id, live[id] - worth);
  }

  lemma {:induction false} ShrunkRoom(
    promised: real, gross: real, live: map<string, real>, id: string, worth: real, pc: Pc, cap: real, missed: real)
    requires RoomOk(promised, gross, live, pc, cap, missed) && id in live && 0.0 < worth
    ensures RoomOk(promised - worth, gross, live[id := live[id] - worth], Shrunk(pc, id, worth), cap, missed)
  {
    SumUpdate(live, id, live[id] - worth);
    if pc.GrossRead? { SumUpdate(pc.covered, id, pc.covered[id] - worth); }
  }

  lemma {:induction false} PromisedAfterExecution(w: World, id: string, worth: real, w': World, account: string)
    requires id in w.live && w'.orders == w.orders && w'.live == w.live[id := w.live[id] - worth]
    ensures Promised(w', account) == Promised(w, account) - worth - Gross(w.holdings) + Gross(w'.holdings)
  {
    SumUpdate(w.live, id, w.live[id] - worth);
    assert w'.live.Keys == w.live.Keys;
  }

  lemma {:induction false} FillStep(w: World, a: Action, w': World, account: string, p: Risk.Policy)
    requires a.Fill? && Inv(w, account, p) && BrokerNext(w, a, w')
    ensures Inv(w', account, p)
  {
    ExecutedRows(w.orders, w.live, a.id, a.worth, account);
    GrossMoves(w.holdings, a.key, a.value);
    PromisedAfterExecution(w, a.id, a.worth, w', account);
    FilledRoom(Promised(w, account), Gross(w.holdings), Gross(w'.holdings), w.live, a.id, a.worth, w.pc, p.maxGross,
               w.missed);
  }

  lemma {:induction false} ShrinkStep(w: World, a: Action, w': World, account: string, p: Risk.Policy)
    requires a.Shrink? && Inv(w, account, p) && BrokerNext(w, a, w')
    ensures Inv(w', account, p)
  {
    ExecutedRows(w.orders, w.live, a.id, a.worth, account);
    PromisedAfterExecution(w, a.id, a.worth, w', account);
    ShrunkRoom(Promised(w, account), Gross(w.holdings), w.live, a.id, a.worth, w.pc, p.maxGross, w.missed);
  }

  lemma {:induction false} ReportStep(w: World, a: Action, w': World, account: string, p: Risk.Policy)
    requires a.Report? && Inv(w, account, p) && BrokerNext(w, a, w')
    ensures Inv(w', account, p)
  {
    var next := StepRow(w.orders[a.id], a.step);
    if next.Some? { ReportKeeps(w, a.id, a.step, next.value, account, p); }
  }

  lemma {:induction false} ReadStep(w: World, a: Action, w': World, account: string, p: Risk.Policy)
    requires (a.ReadGross? || a.ReadOpen? || a.Abort?) && Inv(w, account, p) && SubmitNext(w, a, w', account, p)
    ensures Inv(w', account, p)
  {
    if a.ReadOpen? { ReadsCover(w, account); }
  }

  lemma {:induction false} ProcessStep(w: World, a: Action, w': World, account: string, p: Risk.Policy)
    requires FromProcess(a) && Inv(w, account, p) && SubmitNext(w, a, w', account, p)
    ensures Inv(w', account, p)
  {
    match a
    case Create(intent) => CreateKeeps(w, intent, account, p);
    case Decide(_, _, _, _, _, _) => DecideKeeps(w, a, account, p);
    case Claim(attempt, at) => if w.orders[w.pc.id].state == Authorized { ClaimKeeps(w, attempt, at, account, p); }
    case Place(received) => if received { PlaceKeeps(w, account, p); }
    case _ => ReadStep(w, a, w', account, p);
  }

  lemma {:induction false} StepKeeps(w: World, a: Action, w': World, account: string, p: Risk.Policy)
    requires Inv(w, account, p) && Next(w, a, w', account, p)
    ensures Inv(w', account, p)
  {
    if FromProcess(a) {
      ProcessStep(w, a, w', account, p);
    } else if a.Report? {
      ReportStep(w, a, w', account, p);
    } else if a.Fill? {
      FillStep(w, a, w', account, p);
    } else {
      ShrinkStep(w, a, w', account, p);
    }
  }

  // ------------------------------------------------------------------------- runs

  ghost predicate Run(ws: seq<World>, actions: seq<Action>, account: string, p: Risk.Policy) {
    && |ws| == |actions| + 1
    && forall i | 0 <= i < |actions| :: Next(ws[i], actions[i], ws[i + 1], account, p)
  }

  /** Nothing sent yet, and positions within the cap. */
  ghost predicate Start(w: World, p: Risk.Policy) {
    w.orders == map[] && w.live == map[] && w.pc == Idle && w.missed == 0.0 && Gross(w.holdings) <= p.maxGross
  }

  lemma {:induction false} RunKeeps(ws: seq<World>, actions: seq<Action>, account: string, p: Risk.Policy, i: nat)
    requires Run(ws, actions, account, p) && Start(ws[0], p) && i < |ws|
    ensures Inv(ws[i], account, p)
    decreases i
  {
    if i > 0 {
      RunKeeps(ws, actions, account, p, i - 1);
      assert Next(ws[i - 1], actions[i - 1], ws[i], account, p);
      StepKeeps(ws[i - 1], actions[i - 1], ws[i], account, p);
    } else {
      assert Unplaced(ws[0].orders, {}, account) == map[];
    }
  }

  /** Executed or cancelled at the broker, but still counted by the ledger. */
  function Lags(w: World, account: string): map<string, real>
    requires w.live.Keys <= w.orders.Keys
  {
    map id | id in w.live :: RowRisk(w.orders[id], account) - w.live[id]
  }

  lemma {:induction false} RebuiltIsPromisedPlusLag(w: World, account: string)
    requires RowsOk(w.orders, w.live, account)
    ensures Gross(w.holdings) + OpenNotional(w.orders, account) == Promised(w, account) + Sum(Lags(w, account))
    ensures forall id <- w.live :: Lags(w, account)[id] >= 0.0
  {
    forall id | id in w.live ensures Lags(w, account)[id] >= 0.0 {
      assert Fits(w.orders, w.live, id, account);
      LiveIsCounted(w.orders[id], w.live[id], account);
    }
    RebuiltSplits(w.orders, w.live.Keys, account);
    SumAdd(w.live, Lags(w, account), Counts(w.orders, w.live.Keys, account));
  }

  /**
   In every run, with fills and reports at any moment: positions, everything still executable and
   everything claimed but not yet received stay within the gross cap plus what the reads behind
   an approval had missed.  Positions plus the rebuilt open-order notional exceed that only by
   what the ledger has not yet heard is executed or cancelled.
   */
  lemma {:induction false} ExposureIsBounded(
    ws: seq<World>, actions: seq<Action>, account: string, p: Risk.Policy, i: nat)
    requires Run(ws, actions, account, p) && Start(ws[0], p) && i < |ws|
    ensures var w := ws[i];
      && RowsOk(w.orders, w.live, account)
      && Exposed(w.live, w.holdings) <= Promised(w, account) <= p.maxGross + w.missed
      && Gross(w.holdings) + OpenNotional(w.orders, account) <= p.maxGross + w.missed + Sum(Lags(w, account))
  {
    RunKeeps(ws, actions, account, p, i);
    var w := ws[i];
    SumNonNegative(Unplaced(w.orders, w.live.Keys, account));
    RebuiltIsPromisedPlusLag(w, account);
  }

  /**
   The same account, solved for what a read pair misses: it accounts for everything promised if
   and only if the positions gained no more since the gross value was read than the ledger, or
   the broker's own figure where it is larger, still counts although it is executed or cancelled.
   */
  lemma {:induction false} ReadsCoverIff(w: World, brokerOpen: real, account: string)
    requires RowsOk(w.orders, w.live, account) && w.pc.GrossRead?
    ensures Promised(w, account) <= w.pc.gross + Max(brokerOpen, OpenNotional(w.orders, account))
      <==> Gross(w.holdings) - w.pc.gross
           <= Sum(Lags(w, account)) + Max(0.0, brokerOpen - OpenNotional(w.orders, account))
  {
    RebuiltIsPromisedPlusLag(w, account);
  }

  /**
   Order by order: a read pair loses nothing if and only if the ledger, at the second read, still
   counts for each order what was live of it at the first and has not been cancelled since; a
   fill loses something only once its report has lowered that count.
   */
  lemma {:induction false} LosesNothingIff(orders: Table, covered: map<string, real>, account: string)
    requires covered.Keys <= orders.Keys
    ensures Lost(orders, covered, account) == 0.0
      <==> forall id <- covered :: covered[id] <= RowRisk(orders[id], account)
  {
    var losses := Losses(orders, covered, account);
    forall id | id in losses ensures losses[id] >= 0.0 && (losses[id] == 0.0 <==> covered[id] <= RowRisk(orders[id], account)) {
      LostOf(covered[id], RowRisk(orders[id], account));
    }
    SumNonNegative(losses);
    if forall id <- covered :: covered[id] <= RowRisk(orders[id], account) { SumZero(losses); }
  }

  // ------------------------------------------------------------- when nothing is missed

  /** A report between the two reads tells of no fill made since the first. */
  predicate OldNews(w: World, a: Action) {
    a.Report? && w.pc.GrossRead? && a.id in w.orders ==>
      Truthful(w.orders[a.id], Lookup(w.pc.covered, a.id), a.step)
  }

  /** Nothing is lost sight of. */
  ghost predicate Seen(w: World, account: string) {
    && w.missed == 0.0
    && match w.pc
       case GrossRead(_, covered) => RowsOk(w.orders, covered, account)
       case BothRead(_, _, lost) => lost == 0.0
       case _ => true
  }

  lemma {:induction false} OldReportSeen(w: World, a: Action, w': World, account: string, p: Risk.Policy)
    requires a.Report? && w.pc.GrossRead? && OldNews(w, a) && Seen(w, account) && BrokerNext(w, a, w')
    ensures Seen(w', account)
  {
    var next := StepRow(w.orders[a.id], a.step);
    if next.Some? {
      assert Fits(w.orders, w.pc.covered, a.id, account);
      ReportKeepsRow(w.orders[a.id], Lookup(w.pc.covered, a.id), a.step, next.value, account);
      RowWritten(w.orders, w.pc.covered, a.id, next.value, account);
    }
  }

  lemma {:induction false} StepSeen(w: World, a: Action, w': World, account: string, p: Risk.Policy)
    requires Inv(w, account, p) && Seen(w, account) && Next(w, a, w', account, p) && OldNews(w, a)
    ensures Seen(w', account)
  {
    match a
    case Create(intent) =>
      if w.pc.GrossRead? { RowWritten(w.orders, w.pc.covered, intent.clientOrderId, NewRow(intent, None), account); }
    case ReadOpen(_) => NothingLost(w.orders, w.pc.covered, account);
    case Shrink(id, worth) =>
      if w.pc.GrossRead? { ExecutedRows(w.orders, w.pc.covered, id, worth, account); }
    case Report(id, step) => if w.pc.GrossRead? { OldReportSeen(w, a, w', account, p); }
    case _ =>
  }

  lemma {:induction false} RunSeen(ws: seq<World>, actions: seq<Action>, account: string, p: Risk.Policy, i: nat)
    requires Run(ws, actions, account, p) && Start(ws[0], p) && i < |ws|
    requires forall k | 0 <= k < i :: OldNews(ws[k], actions[k])
    ensures Seen(ws[i], account)
    decreases i
  {
    if i > 0 {
      RunSeen(ws, actions, account, p, i - 1);
      RunKeeps(ws, actions, account, p, i - 1);
      assert Next(ws[i - 1], actions[i - 1], ws[i], account, p) && OldNews(ws[i - 1], actions[i - 1]);
      StepSeen(ws[i - 1], actions[i - 1], ws[i], account, p);
    }
  }

  /**
   If no report between two reads tells of a fill made since the first, the gross cap holds at
   every moment: for positions plus live orders plus unreceived ones, and, up to what the ledger
   has not yet heard of, for positions plus the rebuilt open-order notional.
   */
  lemma {:induction false} ExposureNeverExceedsCap(
    ws: seq<World>, actions: seq<Action>, account: string, p: Risk.Policy, i: nat)
    requires Run(ws, actions, account, p) && Start(ws[0], p) && i < |ws|
    requires forall k | 0 <= k < i :: OldNews(ws[k], actions[k])
    ensures var w := ws[i];
      && RowsOk(w.orders, w.live, account)
      && Exposed(w.live, w.holdings) <= Promised(w, account) <= p.maxGross
      && Gross(w.holdings) + OpenNotional(w.orders, account) <= p.maxGross + Sum(Lags(w, account))
  {
    RunSeen(ws, actions, account, p, i);
    ExposureIsBounded(ws, actions, account, p, i);
  }
}
