/** Pre-trade risk: the authorization decision and the budget of a one-cancels-all group. */
module Risk {
  import opened Wrappers
  import opened Orders
  import opened OpenRisk

  datatype Policy = Policy(
    maxOrder: real, maxSymbol: real, maxGross: real, dailyLoss: real, maxDailyOrders: int, maxDailyTraded: real,
    snapshotAge: int, quoteAge: int, priceDeviation: real, optionSpread: real, ttl: int, liveTypes: set<int>,
    outsideRth: bool, equityShorts: bool, nakedOptions: bool, requireHaltStatus: bool, minShortable: real)

  datatype InstrumentKey =
    | ByConid(id: int)
    | ByTerms(asset: AssetType, symbol: string, currency: string, venue: Option<string>, expiry: Option<int>,
              right: Option<Right>, strike: Option<real>)

  function RiskKey(i: Instrument): InstrumentKey {
    if i.conid.Some? && i.conid.value != 0 then ByConid(i.conid.value)
    else ByTerms(i.assetType, i.symbol, i.currency, i.venue, i.expiry, i.right, i.strike)
  }

  datatype Account = Account(
    account: string, capturedAt: int, availableFunds: real, dailyPnl: real, gross: real, openOrders: real,
    dailyOrders: int, dailyTraded: real, symbols: map<string, real>, instruments: map<InstrumentKey, real>,
    quantities: map<InstrumentKey, real>)

  datatype Quote = Quote(
    instrument: Instrument, at: int, bid: Option<real>, ask: Option<real>, mid: Option<real>, last: Option<real>,
    dataType: Option<int>, halted: Option<int>, shortable: Option<real>)

  datatype RiskError = NoUsablePrice | BadMultiplier | NoMaximumLoss | BadMaximumLoss | BadGroupCount

  datatype Code =
    | Allow | AccountMismatch | IntentExpired | StaleAccount | StaleQuote | QuoteContract | NonLiveData
    | HaltUnknown | Halted | OutsideRth | PositionUnknown | NotReducing | ReduceSize | DailyLoss
    | DailyOrderCount | DailyTraded | OrderNotional | SymbolNotional | GrossNotional | AvailableFunds
    | NakedOption | EquityShort | ShortNotLocatable | InvalidNbbo | OptionSpread | PriceCollar

  datatype Authorization = Authorization(
    code: Code, hash: OrderHash, account: string, decidedAt: int, expiresAt: int, notional: real, projectedSymbol: real)

  function Age(at: int, now: int): int { if now > at then now - at else 0 }

  function Multiplier(i: Instrument): Result<real, RiskError> {
    match i.multiplier
    case Some(m) => if m <= 0.0 then Err(BadMultiplier) else Ok(m)
    case None => Ok(DefaultMultiplier(i.assetType))
  }

  function ReferencePrice(q: Request, quote: Quote): Result<real, RiskError> {
    if q.limitPrice.Some? then Ok(q.limitPrice.value)
    else if q.stopPrice.Some? then Ok(q.stopPrice.value)
    else if q.side == Buy && quote.ask.Some? then Ok(quote.ask.value)
    else if q.side == Sell && quote.bid.Some? then Ok(quote.bid.value)
    else if quote.mid.Some? then Ok(quote.mid.value)
    else if quote.last.Some? then Ok(quote.last.value)
    else Err(NoUsablePrice)
  }

  /** A combo risks its maximum loss per unit, everything else its notional value. */
  function RiskNotional(q: Request, price: real, multiplier: real): Result<real, RiskError> {
    if q.instrument.assetType == Combo then
      match q.instrument.maxLossPerUnit
      case None => Err(NoMaximumLoss)
      case Some(loss) => if loss <= 0.0 then Err(BadMaximumLoss) else Ok(q.quantity * loss)
    else Ok(q.quantity * Abs(price) * multiplier)
  }

  function PriceRejection(q: Request, quote: Quote, p: Policy): Code {
    if quote.bid.None? || quote.ask.None? || quote.ask.value < quote.bid.value then InvalidNbbo
    else
      var bid, ask := quote.bid.value, quote.ask.value;
      if q.instrument.assetType != Combo && bid <= 0.0 then InvalidNbbo
      else
        var mid := if quote.mid.Some? && quote.mid.value != 0.0 then quote.mid.value else (bid + ask) / 2.0;
        var scale := Abs(mid);
        if scale <= 0.0 then InvalidNbbo
        else if (q.instrument.assetType == OptionContract || q.instrument.assetType == Combo)
                && (ask - bid) / scale > p.optionSpread then OptionSpread
        else
          var price := Or(q.limitPrice, q.stopPrice);
          if price.Some? && Abs(price.value - mid) / scale > p.priceDeviation then PriceCollar
          else Allow
  }

  function ReducingRejection(q: Request, a: Account, quote: Quote, p: Policy): Code {
    var key := RiskKey(q.instrument);
    if key !in a.quantities then PositionUnknown
    else
      var held := a.quantities[key];
      if (q.side == Sell && held <= 0.0) || (q.side == Buy && held >= 0.0) then NotReducing
      else if q.quantity > Abs(held) then ReduceSize
      else PriceRejection(q, quote, p)
  }

  predicate IsStock(i: Instrument) { i.assetType == Equity || i.assetType == Etf }

  function StockHeld(a: Account, i: Instrument): real {
    if RiskKey(i) in a.instruments then a.instruments[RiskKey(i)] else Get(a.symbols, i.symbol)
  }

  /** Limits that apply to an order that may open exposure. */
  function LimitRejection(
    q: Request, a: Account, quote: Quote, p: Policy, notional: real, orders: int, fills: int): Code
  {
    var i := q.instrument;
    if a.dailyPnl <= -p.dailyLoss then DailyLoss
    else if a.dailyOrders + orders > p.maxDailyOrders then DailyOrderCount
    else if a.dailyTraded + notional * (fills as real) > p.maxDailyTraded then DailyTraded
    else if notional > p.maxOrder then OrderNotional
    else if Abs(Get(a.symbols, i.symbol) + Signed(q.side, notional)) > p.maxSymbol then SymbolNotional
    else if a.gross + a.openOrders + notional > p.maxGross then GrossNotional
    else if q.side == Buy && notional > a.availableFunds then AvailableFunds
    else if i.assetType == OptionContract && q.side == Sell && !p.nakedOptions then NakedOption
    else if IsStock(i) && q.side == Sell && (StockHeld(a, i) <= 0.0 || notional > StockHeld(a, i)) && !p.equityShorts then
      EquityShort
    else if IsStock(i) && q.side == Sell && (StockHeld(a, i) <= 0.0 || notional > StockHeld(a, i))
            && (quote.shortable.None? || quote.shortable.value <= p.minShortable) then ShortNotLocatable
    else PriceRejection(q, quote, p)
  }

  /** The first rule an order breaks, in the gateway's order. */
  function FirstRejection(
    intent: Intent, a: Account, quote: Quote, p: Policy, now: int, live: bool, notional: real, orders: int, fills: int)
    : Code
  {
    var q := intent.request;
    if a.account != q.account then AccountMismatch
    else if intent.expiresAt.Some? && now >= intent.expiresAt.value then IntentExpired
    else if Age(a.capturedAt, now) > p.snapshotAge then StaleAccount
    else if Age(quote.at, now) > p.quoteAge then StaleQuote
    else if quote.instrument != q.instrument then QuoteContract
    else if live && (quote.dataType.None? || quote.dataType.value !in p.liveTypes) then NonLiveData
    else if live && p.requireHaltStatus && (quote.halted.None? || quote.halted.value < 0) then HaltUnknown
    else if live && p.requireHaltStatus && quote.halted.value > 0 then Halted
    else if q.outsideRth && !p.outsideRth then Code.OutsideRth
    else if q.reduceOnly then ReducingRejection(q, a, quote, p)
    else LimitRejection(q, a, quote, p, notional, orders, fills)
  }

  function Authorize(
    intent: Intent, a: Account, quote: Quote, p: Policy, now: int, live: bool, orders: int, fills: int)
    : Result<Authorization, RiskError>
  {
    if orders <= 0 || fills <= 0 then Err(BadGroupCount)
    else
      var q := intent.request;
      var m := Multiplier(q.instrument);
      if m.Err? then Err(m.error)
      else
        var price := ReferencePrice(q, quote);
        if price.Err? then Err(price.error)
        else
          var n := RiskNotional(q, price.value, m.value);
          if n.Err? then Err(n.error)
          else Ok(Authorization(
                    FirstRejection(intent, a, quote, p, now, live, n.value, orders, fills),
                    HashOf(intent), a.account, now, now + p.ttl, n.value,
                    Get(a.symbols, q.instrument.symbol) + Signed(q.side, n.value)))
  }

  // ------------------------------------------------------------------ group budget

  /** A member of a group with the quote and the time at which it is looked at. */
  datatype Member = Member(intent: Intent, quote: Quote, at: int)

  /** The working snapshot for the members that follow. */
  function Charged(a: Account, q: Request, auth: Authorization): Account {
    var key := RiskKey(q.instrument);
    a.(dailyTraded := a.dailyTraded + auth.notional,
       openOrders := a.openOrders + auth.notional,
       availableFunds := if q.side == Buy && !q.reduceOnly then Max(0.0, a.availableFunds - auth.notional)
                         else a.availableFunds,
       symbols := a.symbols[q.instrument.symbol := auth.projectedSymbol],
       instruments := a.instruments[key := Get(a.instruments, key) + Signed(q.side, auth.notional)])
  }

  /** Each member is authorized against a snapshot charged with its predecessors. */
  function Decide(ms: seq<Member>, a: Account, p: Policy, live: bool, orders: int): Result<seq<Authorization>, RiskError> {
    if ms == [] then Ok([])
    else
      var first := Authorize(ms[0].intent, a, ms[0].quote, p, ms[0].at, live, orders, 1);
      if first.Err? then Err(first.error)
      else
        var rest := Decide(ms[1..], Charged(a, ms[0].intent.request, first.value), p, live, orders);
        if rest.Err? then rest else Ok([first.value] + rest.value)
  }

  function After(auths: seq<Authorization>, rest: Result<seq<Authorization>, RiskError>)
    : Result<seq<Authorization>, RiskError>
  {
    if rest.Err? then rest else Ok(auths + rest.value)
  }

  lemma {:induction false} DecideNext(
    ms: seq<Member>, a: Account, p: Policy, live: bool, orders: int, auths: seq<Authorization>)
    requires ms != []
    ensures var first := Authorize(ms[0].intent, a, ms[0].quote, p, ms[0].at, live, orders, 1);
      After(auths, Decide(ms, a, p, live, orders)) ==
        if first.Err? then Err(first.error)
        else After(auths + [first.value],
                   Decide(ms[1..], Charged(a, ms[0].intent.request, first.value), p, live, orders))
  {
    var first := Authorize(ms[0].intent, a, ms[0].quote, p, ms[0].at, live, orders, 1);
    if first.Ok? {
      var rest := Decide(ms[1..], Charged(a, ms[0].intent.request, first.value), p, live, orders);
      if rest.Ok? { assert auths + ([first.value] + rest.value) == auths + [first.value] + rest.value; }
    }
  }

  method Charge(a: Account, q: Request, granted: Authorization) returns (working: Account)
    ensures working == Charged(a, q, granted)
  {
    var symbols := a.symbols[q.instrument.symbol := granted.projectedSymbol];
    var key := RiskKey(q.instrument);
    var signed := if q.side == Buy then granted.notional else -granted.notional;
    var instruments := a.instruments[key := Get(a.instruments, key) + signed];
    var funds := a.availableFunds;
    if q.side == Buy && !q.reduceOnly { funds := Max(0.0, funds - granted.notional); }
    working := a.(dailyTraded := a.dailyTraded + granted.notional, openOrders := a.openOrders + granted.notional,
                  availableFunds := funds, symbols := symbols, instruments := instruments);
  }

  method AuthorizeGroup(ms: seq<Member>, snapshot: Account, p: Policy, live: bool)
    returns (r: Result<seq<Authorization>, RiskError>)
    ensures r == Decide(ms, snapshot, p, live, |ms|)
  {
    var working, auths := snapshot, [];
    ghost var whole := Decide(ms, snapshot, p, live, |ms|);
    assert ms[0..] == ms && (whole.Ok? ==> auths + whole.value == whole.value);
    for k := 0 to |ms|
      invariant whole == After(auths, Decide(ms[k..], working, p, live, |ms|))
    {
      assert ms[k..][0] == ms[k] && ms[k..][1..] == ms[k + 1..];
      DecideNext(ms[k..], working, p, live, |ms|, auths);
      var request := ms[k].intent.request;
      var authorization := Authorize(ms[k].intent, working, ms[k].quote, p, ms[k].at, live, |ms|, 1);
      if authorization.Err? { return Err(authorization.error); }
      var granted := authorization.value;
      auths := auths + [granted];
      working := Charge(working, request, granted);
    }
    assert auths + [] == auths && ms[|ms|..] == [];
    return Ok(auths);
  }

  function Total(auths: seq<Authorization>): real {
    if auths == [] then 0.0 else auths[0].notional + Total(auths[1..])
  }

  function BuyTotal(ms: seq<Member>, auths: seq<Authorization>): real
    requires |ms| == |auths|
  {
    if ms == [] then 0.0
    else (if ms[0].intent.request.side == Buy then auths[0].notional else 0.0) + BuyTotal(ms[1..], auths[1..])
  }

  function SymbolNet(ms: seq<Member>, auths: seq<Authorization>, symbol: string): real
    requires |ms| == |auths|
  {
    if ms == [] then 0.0
    else
      var q := ms[0].intent.request;
      (if q.instrument.symbol == symbol then Signed(q.side, auths[0].notional) else 0.0)
      + SymbolNet(ms[1..], auths[1..], symbol)
  }

  predicate Touches(ms: seq<Member>, symbol: string) {
    exists i :: 0 <= i < |ms| && ms[i].intent.request.instrument.symbol == symbol
  }

  predicate Buys(ms: seq<Member>) { exists i :: 0 <= i < |ms| && ms[i].intent.request.side == Buy }

  /** Everything decided, everything approved, nothing reduce-only. */
  predicate AllApproved(ms: seq<Member>, a: Account, p: Policy, live: bool, orders: int, auths: seq<Authorization>) {
    && Decide(ms, a, p, live, orders) == Ok(auths) && |auths| == |ms|
    && (forall i | 0 <= i < |auths| :: auths[i].code == Allow)
    && (forall i | 0 <= i < |ms| :: !ms[i].intent.request.reduceOnly)
  }

  lemma {:induction false} DecideLength(ms: seq<Member>, a: Account, p: Policy, live: bool, orders: int)
    ensures Decide(ms, a, p, live, orders).Ok? ==> |Decide(ms, a, p, live, orders).value| == |ms|
    decreases |ms|
  {
    if ms != [] {
      var first := Authorize(ms[0].intent, a, ms[0].quote, p, ms[0].at, live, orders, 1);
      if first.Ok? { DecideLength(ms[1..], Charged(a, ms[0].intent.request, first.value), p, live, orders); }
    }
  }

  /** What the approval of one order says about the snapshot it was checked against. */
  lemma {:induction false} ApprovalFits(
    intent: Intent, a: Account, quote: Quote, p: Policy, now: int, live: bool, orders: int, fills: int)
    requires var r := Authorize(intent, a, quote, p, now, live, orders, fills); r.Ok? && r.value.code == Allow
    requires !intent.request.reduceOnly
    ensures var auth := Authorize(intent, a, quote, p, now, live, orders, fills).value; var q := intent.request;
      && a.gross + a.openOrders + auth.notional <= p.maxGross
      && a.dailyTraded + auth.notional * (fills as real) <= p.maxDailyTraded
      && a.dailyOrders + orders <= p.maxDailyOrders
      && auth.notional <= p.maxOrder
      && auth.projectedSymbol == Get(a.symbols, q.instrument.symbol) + Signed(q.side, auth.notional)
      && Abs(auth.projectedSymbol) <= p.maxSymbol
      && (q.side == Buy ==> auth.notional <= a.availableFunds)
      && (IsStock(q.instrument) && q.side == Sell && !p.equityShorts ==> auth.notional <= StockHeld(a, q.instrument))
  {
  }

  lemma {:induction false} RestApproved(
    ms: seq<Member>, a: Account, p: Policy, live: bool, orders: int, auths: seq<Authorization>)
    requires ms != [] && AllApproved(ms, a, p, live, orders, auths)
    ensures Authorize(ms[0].intent, a, ms[0].quote, p, ms[0].at, live, orders, 1) == Ok(auths[0])
    ensures AllApproved(ms[1..], Charged(a, ms[0].intent.request, auths[0]), p, live, orders, auths[1..])
  {
    DecideLength(ms[1..], Charged(a, ms[0].intent.request, auths[0]), p, live, orders);
  }

  lemma {:induction false} ApprovedCons(
    ms: seq<Member>, a: Account, p: Policy, live: bool, orders: int, auths: seq<Authorization>)
    requires ms != [] && auths != [] && auths[0].code == Allow && !ms[0].intent.request.reduceOnly
    requires Authorize(ms[0].intent, a, ms[0].quote, p, ms[0].at, live, orders, 1) == Ok(auths[0])
    requires AllApproved(ms[1..], Charged(a, ms[0].intent.request, auths[0]), p, live, orders, auths[1..])
    ensures AllApproved(ms, a, p, live, orders, auths)
  {
    assert auths == [auths[0]] + auths[1..];
    forall i | 0 <= i < |ms| ensures auths[i].code == Allow && !ms[i].intent.request.reduceOnly {
      if i > 0 { assert auths[1..][i - 1].code == Allow && !ms[1..][i - 1].intent.request.reduceOnly; }
    }
  }

  /** The leading members of an approved group are an approved group. */
  lemma {:induction false} PrefixApproved(
    ms: seq<Member>, a: Account, p: Policy, live: bool, orders: int, auths: seq<Authorization>, k: nat)
    requires AllApproved(ms, a, p, live, orders, auths) && k <= |ms|
    ensures AllApproved(ms[..k], a, p, live, orders, auths[..k])
    decreases k
  {
    if k > 0 {
      RestApproved(ms, a, p, live, orders, auths);
      PrefixApproved(ms[1..], Charged(a, ms[0].intent.request, auths[0]), p, live, orders, auths[1..], k - 1);
      assert ms[..k][1..] == ms[1..][..k - 1] && auths[..k][1..] == auths[1..][..k - 1];
      ApprovedCons(ms[..k], a, p, live, orders, auths[..k]);
    }
  }

  lemma {:induction false} MoneyFits(
    ms: seq<Member>, a: Account, p: Policy, live: bool, orders: int, auths: seq<Authorization>)
    requires AllApproved(ms, a, p, live, orders, auths) && ms != []
    ensures a.gross + a.openOrders + Total(auths) <= p.maxGross
    ensures a.dailyTraded + Total(auths) <= p.maxDailyTraded
    ensures a.dailyOrders + orders <= p.maxDailyOrders
    decreases |ms|
  {
    RestApproved(ms, a, p, live, orders, auths);
    ApprovalFits(ms[0].intent, a, ms[0].quote, p, ms[0].at, live, orders, 1);
    if |ms| > 1 { MoneyFits(ms[1..], Charged(a, ms[0].intent.request, auths[0]), p, live, orders, auths[1..]); }
  }

  lemma {:induction false} CashFits(
    ms: seq<Member>, a: Account, p: Policy, live: bool, orders: int, auths: seq<Authorization>)
    requires AllApproved(ms, a, p, live, orders, auths) && Buys(ms)
    ensures BuyTotal(ms, auths) <= a.availableFunds
    decreases |ms|
  {
    RestApproved(ms, a, p, live, orders, auths);
    ApprovalFits(ms[0].intent, a, ms[0].quote, p, ms[0].at, live, orders, 1);
    TouchesFirst(ms, "");
    if Buys(ms[1..]) {
      CashFits(ms[1..], Charged(a, ms[0].intent.request, auths[0]), p, live, orders, auths[1..]);
    } else {
      UnboughtIsZero(ms[1..], auths[1..]);
    }
  }

  lemma {:induction false} ChargedSymbol(a: Account, q: Request, auth: Authorization, symbol: string)
    requires auth.projectedSymbol == Get(a.symbols, q.instrument.symbol) + Signed(q.side, auth.notional)
    ensures Get(Charged(a, q, auth).symbols, symbol)
         == Get(a.symbols, symbol) + if q.instrument.symbol == symbol then Signed(q.side, auth.notional) else 0.0
  {
  }

  lemma {:induction false} FirstApproved(
    ms: seq<Member>, a: Account, p: Policy, live: bool, orders: int, auths: seq<Authorization>)
    requires ms != [] && AllApproved(ms, a, p, live, orders, auths)
    ensures var q := ms[0].intent.request;
      && auths[0].projectedSymbol == Get(a.symbols, q.instrument.symbol) + Signed(q.side, auths[0].notional)
      && Abs(auths[0].projectedSymbol) <= p.maxSymbol
  {
    RestApproved(ms, a, p, live, orders, auths);
    ApprovalFits(ms[0].intent, a, ms[0].quote, p, ms[0].at, live, orders, 1);
  }

  /** One more member in front: its own check, and the bound for the rest, bound the whole. */
  lemma {:induction false} SymbolBound(
    ms: seq<Member>, a: Account, auths: seq<Authorization>, symbol: string, cap: real)
    requires |ms| == |auths| && ms != []
    requires var q := ms[0].intent.request;
      && auths[0].projectedSymbol == Get(a.symbols, q.instrument.symbol) + Signed(q.side, auths[0].notional)
      && Abs(auths[0].projectedSymbol) <= cap
    requires Touches(ms[1..], symbol) ==>
      Abs(Get(Charged(a, ms[0].intent.request, auths[0]).symbols, symbol) + SymbolNet(ms[1..], auths[1..], symbol)) <= cap
    ensures Touches(ms, symbol) ==> Abs(Get(a.symbols, symbol) + SymbolNet(ms, auths, symbol)) <= cap
  {
    TouchesFirst(ms, symbol);
    ChargedSymbol(a, ms[0].intent.request, auths[0], symbol);
    UntouchedIsZero(ms[1..], auths[1..], symbol);
  }

  lemma {:induction false} SymbolFits(
    ms: seq<Member>, a: Account, p: Policy, live: bool, orders: int, auths: seq<Authorization>, symbol: string)
    requires AllApproved(ms, a, p, live, orders, auths)
    ensures Touches(ms, symbol) ==> Abs(Get(a.symbols, symbol) + SymbolNet(ms, auths, symbol)) <= p.maxSymbol
    decreases |ms|
  {
    if ms != [] {
      FirstApproved(ms, a, p, live, orders, auths);
      RestApproved(ms, a, p, live, orders, auths);
      SymbolFits(ms[1..], Charged(a, ms[0].intent.request, auths[0]), p, live, orders, auths[1..], symbol);
      SymbolBound(ms, a, auths, symbol, p.maxSymbol);
    }
  }

  /**
   An approved group fits the budget as a whole, and so does each of its prefixes: gross,
   daily turnover, order count, cash for the buys, and the net exposure of every symbol.
   */
  lemma {:induction false} GroupFitsBudget(
    ms: seq<Member>, a: Account, p: Policy, live: bool, orders: int, auths: seq<Authorization>, k: nat)
    requires AllApproved(ms, a, p, live, orders, auths) && 0 < k <= |ms|
    ensures a.gross + a.openOrders + Total(auths[..k]) <= p.maxGross
    ensures a.dailyTraded + Total(auths[..k]) <= p.maxDailyTraded
    ensures a.dailyOrders + orders <= p.maxDailyOrders
    ensures Buys(ms[..k]) ==> BuyTotal(ms[..k], auths[..k]) <= a.availableFunds
    ensures forall symbol | Touches(ms[..k], symbol) ::
      Abs(Get(a.symbols, symbol) + SymbolNet(ms[..k], auths[..k], symbol)) <= p.maxSymbol
  {
    PrefixApproved(ms, a, p, live, orders, auths, k);
    MoneyFits(ms[..k], a, p, live, orders, auths[..k]);
    if Buys(ms[..k]) { CashFits(ms[..k], a, p, live, orders, auths[..k]); }
    forall symbol | Touches(ms[..k], symbol)
      ensures Abs(Get(a.symbols, symbol) + SymbolNet(ms[..k], auths[..k], symbol)) <= p.maxSymbol
    {
      SymbolFits(ms[..k], a, p, live, orders, auths[..k], symbol);
    }
  }

  lemma {:induction false} TouchesFirst(ms: seq<Member>, symbol: string)
    requires ms != []
    ensures Touches(ms, symbol) <==> ms[0].intent.request.instrument.symbol == symbol || Touches(ms[1..], symbol)
    ensures Buys(ms) <==> ms[0].intent.request.side == Buy || Buys(ms[1..])
  {
    if Touches(ms, symbol) && ms[0].intent.request.instrument.symbol != symbol {
      var i :| 0 <= i < |ms| && ms[i].intent.request.instrument.symbol == symbol;
      assert ms[1..][i - 1] == ms[i];
    }
    if Buys(ms) && ms[0].intent.request.side != Buy {
      var i :| 0 <= i < |ms| && ms[i].intent.request.side == Buy;
      assert ms[1..][i - 1] == ms[i];
    }
  }

  lemma {:induction false} UntouchedIsZero(ms: seq<Member>, auths: seq<Authorization>, symbol: string)
    requires |ms| == |auths|
    ensures !Touches(ms, symbol) ==> SymbolNet(ms, auths, symbol) == 0.0
  {
    if ms != [] {
      TouchesFirst(ms, symbol);
      UntouchedIsZero(ms[1..], auths[1..], symbol);
    }
  }

  lemma {:induction false} UnboughtIsZero(ms: seq<Member>, auths: seq<Authorization>)
    requires |ms| == |auths|
    ensures !Buys(ms) ==> BuyTotal(ms, auths) == 0.0
  {
    if ms != [] {
      TouchesFirst(ms, "");
      UnboughtIsZero(ms[1..], auths[1..]);
    }
  }

  // ------------------------------------------------------------------ short selling

  function HoldingNet(ms: seq<Member>, auths: seq<Authorization>, key: InstrumentKey): real
    requires |ms| == |auths|
  {
    if ms == [] then 0.0
    else
      var q := ms[0].intent.request;
      (if RiskKey(q.instrument) == key then Signed(q.side, auths[0].notional) else 0.0)
      + HoldingNet(ms[1..], auths[1..], key)
  }

  predicate StockOrders(ms: seq<Member>, key: InstrumentKey) {
    forall i | 0 <= i < |ms| ::
      var q := ms[i].intent.request;
      RiskKey(q.instrument) == key ==> IsStock(q.instrument) && q.quantity > 0.0
  }

  lemma {:induction false} StockNotional(
    intent: Intent, a: Account, quote: Quote, p: Policy, now: int, live: bool, orders: int, fills: int)
    requires Authorize(intent, a, quote, p, now, live, orders, fills).Ok?
    requires IsStock(intent.request.instrument) && intent.request.quantity > 0.0
    ensures Authorize(intent, a, quote, p, now, live, orders, fills).value.notional >= 0.0
  {
    var q := intent.request;
    var m := Multiplier(q.instrument).value;
    var price := ReferencePrice(q, quote).value;
    assert q.quantity * Abs(price) >= 0.0;
    assert q.quantity * Abs(price) * m >= 0.0;
  }

  /** A stock the snapshot knows by its own key is never sold below zero, or below what it was. */
  lemma {:induction false} KnownStockKept(
    ms: seq<Member>, a: Account, p: Policy, live: bool, orders: int, auths: seq<Authorization>, key: InstrumentKey)
    requires AllApproved(ms, a, p, live, orders, auths) && !p.equityShorts && StockOrders(ms, key)
    requires key in a.instruments
    ensures a.instruments[key] + HoldingNet(ms, auths, key) >= Min(a.instruments[key], 0.0)
    decreases |ms|
  {
    if ms != [] {
      RestApproved(ms, a, p, live, orders, auths);
      ApprovalFits(ms[0].intent, a, ms[0].quote, p, ms[0].at, live, orders, 1);
      if RiskKey(ms[0].intent.request.instrument) == key {
        StockNotional(ms[0].intent, a, ms[0].quote, p, ms[0].at, live, orders, 1);
      }
      KnownStockKept(ms[1..], Charged(a, ms[0].intent.request, auths[0]), p, live, orders, auths[1..], key);
    }
  }

  /** The key and the symbol pick out the same members. */
  predicate OnlyKeyOfSymbol(ms: seq<Member>, key: InstrumentKey, symbol: string) {
    forall i | 0 <= i < |ms| ::
      RiskKey(ms[i].intent.request.instrument) == key <==> ms[i].intent.request.instrument.symbol == symbol
  }

  /** A stock known by its symbol only: the first order of it is checked against that, the rest against each other. */
  lemma {:induction false} SymbolStockKept(
    ms: seq<Member>, a: Account, p: Policy, live: bool, orders: int, auths: seq<Authorization>, key: InstrumentKey,
    symbol: string)
    requires AllApproved(ms, a, p, live, orders, auths) && !p.equityShorts && StockOrders(ms, key)
    requires key !in a.instruments && OnlyKeyOfSymbol(ms, key, symbol)
    ensures Get(a.symbols, symbol) + HoldingNet(ms, auths, key) >= Min(Get(a.symbols, symbol), 0.0)
    decreases |ms|
  {
    if ms != [] {
      RestApproved(ms, a, p, live, orders, auths);
      ApprovalFits(ms[0].intent, a, ms[0].quote, p, ms[0].at, live, orders, 1);
      var charged := Charged(a, ms[0].intent.request, auths[0]);
      if RiskKey(ms[0].intent.request.instrument) == key {
        StockNotional(ms[0].intent, a, ms[0].quote, p, ms[0].at, live, orders, 1);
        if ms[0].intent.request.side == Sell {
          SoldIsHeld(ms[0].intent, a, ms[0].quote, p, ms[0].at, live, orders);
        }
        KnownStockKept(ms[1..], charged, p, live, orders, auths[1..], key);
      } else {
        SymbolStockKept(ms[1..], charged, p, live, orders, auths[1..], key, symbol);
      }
    }
  }

  lemma {:induction false} SoldIsHeld(
    intent: Intent, a: Account, quote: Quote, p: Policy, now: int, live: bool, orders: int)
    requires var r := Authorize(intent, a, quote, p, now, live, orders, 1); r.Ok? && r.value.code == Allow
    requires !intent.request.reduceOnly && IsStock(intent.request.instrument) && intent.request.side == Sell
    requires !p.equityShorts
    ensures 0.0 < StockHeld(a, intent.request.instrument)
    ensures Authorize(intent, a, quote, p, now, live, orders, 1).value.notional <= StockHeld(a, intent.request.instrument)
  {
  }

  /**
   Without permission to open shorts, no prefix of an approved group sells more of a stock than is
   held, provided the snapshot has its key or the group has no other instrument of its symbol.
   */
  lemma {:induction false} GroupNeverShortsStock(
    ms: seq<Member>, a: Account, p: Policy, live: bool, orders: int, auths: seq<Authorization>, k: nat,
    i: Instrument)
    requires AllApproved(ms, a, p, live, orders, auths) && k <= |ms|
    requires !p.equityShorts && StockOrders(ms, RiskKey(i))
    requires RiskKey(i) in a.instruments || OnlyKeyOfSymbol(ms, RiskKey(i), i.symbol)
    ensures StockHeld(a, i) + HoldingNet(ms[..k], auths[..k], RiskKey(i)) >= Min(StockHeld(a, i), 0.0)
  {
    PrefixApproved(ms, a, p, live, orders, auths, k);
    if RiskKey(i) in a.instruments {
      KnownStockKept(ms[..k], a, p, live, orders, auths[..k], RiskKey(i));
    } else {
      SymbolStockKept(ms[..k], a, p, live, orders, auths[..k], RiskKey(i), i.symbol);
    }
  }

  function StockOrder(conid: int, side: Side, quantity: real): Member {
    var stock := Instrument(Equity, "X", "USD", None, Some(conid), None, None, None, None, None, []);
    Member(Intent("", "s", Request(stock, side, quantity, Lmt, Some(1.0), None, Day, "A", "", true, false, false,
                                   None, None, None, None, false), None, map[]),
           Quote(stock, 0, Some(1.0), Some(1.0), Some(1.0), None, Some(1), Some(0), None), 0)
  }

  function Flat(funds: real): Account { Account("A", 0, funds, 0.0, 0.0, 0.0, 0, 0.0, map[], map[], map[]) }

  function OrdinaryPolicy(cap: real): Policy {
    Policy(cap, cap, 10.0 * cap, 1.0, 100, 10.0 * cap, 10, 5, 1.0, 1.0, 5, {1}, false, false, false, true, 2.5)
  }

  /**
   Otherwise it can: a group that buys one listing of a symbol and sells another, of which
   nothing is held, is approved whatever the amount.
   */
  lemma {:induction false} OtherListingCoversShort(amount: real) returns (auths: seq<Authorization>)
    requires amount > 0.0
    ensures var ms := [StockOrder(1, Buy, amount), StockOrder(2, Sell, amount)];
      var i := ms[1].intent.request.instrument;
      && AllApproved(ms, Flat(amount), OrdinaryPolicy(amount), false, 2, auths) && StockOrders(ms, RiskKey(i))
      && StockHeld(Flat(amount), i) == 0.0 && HoldingNet(ms, auths, RiskKey(i)) == -amount
  {
    var a, p, buy, sell := Flat(amount), OrdinaryPolicy(amount), StockOrder(1, Buy, amount), StockOrder(2, Sell, amount);
    var bought := BuyApproved(amount);
    var sold := SaleApproved(amount, bought);
    auths := [bought, sold];
    GroupOfTwo(buy, sell, a, p, false, 2, bought, sold);
    NetOfTwo(buy, sell, bought, sold, ByConid(2));
  }

  lemma {:induction false} BuyApproved(amount: real) returns (bought: Authorization)
    requires amount > 0.0
    ensures var buy := StockOrder(1, Buy, amount);
      && Authorize(buy.intent, Flat(amount), buy.quote, OrdinaryPolicy(amount), 0, false, 2, 1) == Ok(bought)
      && bought.code == Allow && bought.notional == amount == bought.projectedSymbol
  {
    var buy := StockOrder(1, Buy, amount);
    bought := Authorize(buy.intent, Flat(amount), buy.quote, OrdinaryPolicy(amount), 0, false, 2, 1).value;
  }

  lemma {:induction false} SaleApproved(amount: real, bought: Authorization) returns (sold: Authorization)
    requires amount > 0.0 && bought.notional == amount == bought.projectedSymbol
    ensures var buy, sell := StockOrder(1, Buy, amount), StockOrder(2, Sell, amount);
      var a := Charged(Flat(amount), buy.intent.request, bought);
      && Authorize(sell.intent, a, sell.quote, OrdinaryPolicy(amount), 0, false, 2, 1) == Ok(sold)
      && sold.code == Allow && sold.notional == amount
  {
    var buy, sell := StockOrder(1, Buy, amount), StockOrder(2, Sell, amount);
    var a := Charged(Flat(amount), buy.intent.request, bought);
    assert ByConid(2) !in a.instruments && Get(a.symbols, "X") == amount;
    sold := Authorize(sell.intent, a, sell.quote, OrdinaryPolicy(amount), 0, false, 2, 1).value;
  }

  lemma {:induction false} GroupOfTwo(
    m: Member, n: Member, a: Account, p: Policy, live: bool, orders: int, first: Authorization, second: Authorization)
    requires Authorize(m.intent, a, m.quote, p, m.at, live, orders, 1) == Ok(first)
    requires Authorize(n.intent, Charged(a, m.intent.request, first), n.quote, p, n.at, live, orders, 1) == Ok(second)
    ensures Decide([m, n], a, p, live, orders) == Ok([first, second])
  {
    var charged := Charged(a, m.intent.request, first);
    assert [m, n][1..] == [n] && [n][1..] == [];
    assert Decide([n], charged, p, live, orders) == Ok([second] + []);
    assert [second] + [] == [second] && [first] + [second] == [first, second];
  }

  lemma {:induction false} NetOfTwo(
    m: Member, n: Member, first: Authorization, second: Authorization, key: InstrumentKey)
    requires RiskKey(m.intent.request.instrument) != key && RiskKey(n.intent.request.instrument) == key
    ensures HoldingNet([m, n], [first, second], key) == Signed(n.intent.request.side, second.notional)
  {
    assert [m, n][1..] == [n] && [n][1..] == [] && [first, second][1..] == [second] && [second][1..] == [];
    assert HoldingNet([n], [second], key) == Signed(n.intent.request.side, second.notional) + HoldingNet([], [], key);
  }
}
