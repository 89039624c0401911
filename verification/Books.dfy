/**
 The simulated broker and the order manager keep two position books by different code.  The
 lemmas prove that the books agree once undrained events are applied, and that the broker's
 equity is conserved.
 */
module Books {
  import opened Wrappers
  import opened Orders
  import opened OpenRisk
  import opened Sums

  /** `key` is the stable instrument key shared by orders, fills and positions. */
  datatype Contract = Contract(key: string, multiplier: real, isOption: bool)

  datatype Order = Order(id: string, strategy: string, contract: Contract, side: Side, quantity: real, price: real)

  datatype OrderStatus = PendingSubmit | AllFilled | OrderCancelled | OrderRejected

  datatype Update = Update(orderId: string, brokerOrderId: nat, status: OrderStatus)

  datatype Fill = Fill(
    strategy: string, contract: Contract, side: Side, quantity: real, price: real, fees: real, execId: nat,
    orderId: string)

  datatype Event = Updated(update: Update) | Executed(fill: Fill)

  datatype Position = Position(contract: Contract, quantity: real, avg: real, mark: real, notional: real)

  datatype BookError = NotConnected | MissingId | UnknownOrder

  function Put<K, V>(m: map<K, V>, k: K, v: Option<V>): map<K, V> { if v.Some? then m[k := v.value] else m - {k} }

  // --------------------------------------------------------------- simulated broker

  datatype BrokerState = BrokerState(
    connected: bool, cash: real, orders: map<string, Update>, positions: map<string, Position>, events: seq<Event>)

  function Fee(o: Order): real { if o.contract.isOption then Abs(o.quantity) * 0.65 else 0.0 }

  /** Money value of a signed quantity. */
  function Value(quantity: real, price: real, multiplier: real): real { quantity * price * multiplier }

  function CashDelta(f: Fill): real { Value(Signed(f.side, f.quantity), f.price, f.contract.multiplier) }

  /** Cost of a position at its average price. */
  function Cost(quantity: real, avg: real): real { avg * Abs(quantity) }

  function Average(cost: real, quantity: real): real
    requires quantity != 0.0
  {
    cost / Abs(quantity)
  }

  /** The broker's position after a fill; a position that returns to zero is dropped. */
  function BrokerPosition(p: Option<Position>, f: Fill): Option<Position> {
    var signed := Signed(f.side, f.quantity);
    var held := if p.Some? then p.value.quantity else 0.0;
    var quantity := held + signed;
    if quantity == 0.0 then None
    else
      var avg :=
        if p.None? || held == 0.0 || held * signed > 0.0 then
          Average((if p.Some? then Cost(held, p.value.avg) else 0.0) + Cost(signed, f.price), quantity)
        else p.value.avg;
      Some(Position(f.contract, quantity, avg, f.price, Value(quantity, f.price, f.contract.multiplier)))
  }

  function AfterFill(b: BrokerState, f: Fill): BrokerState {
    var key := f.contract.key;
    b.(cash := b.cash - (CashDelta(f) + f.fees),
       positions := Put(b.positions, key, BrokerPosition(Lookup(b.positions, key), f)))
  }

  function FillOf(o: Order, number: nat): Fill {
    Fill(o.strategy, o.contract, o.side, o.quantity, o.price, Fee(o), number, o.id)
  }

  function Submitted(b: BrokerState, o: Order): (BrokerState, Result<Update, BookError>) {
    if !b.connected then (b, Err(NotConnected))
    else if o.id == "" then (b, Err(MissingId))
    else if o.id in b.orders then (b, Ok(b.orders[o.id]))
    else
      var number := |b.orders| + 1;
      var update, fill := Update(o.id, number, AllFilled), FillOf(o, number);
      (AfterFill(b.(orders := b.orders[o.id := update]), fill).(events := b.events + [Updated(update), Executed(fill)]),
       Ok(update))
  }

  function Marked(b: BrokerState, key: string, mark: Option<real>): BrokerState {
    if key !in b.positions || mark.None? then b
    else
      var p := b.positions[key];
      b.(positions := b.positions[key := p.(mark := mark.value,
                                             notional := Value(p.quantity, mark.value, p.contract.multiplier))])
  }

  function Or4(a: Option<real>, b: Option<real>, c: Option<real>, d: Option<real>): Option<real> {
    Or(a, Or(b, Or(c, d)))
  }

  class SimulatedBroker {
    var connected: bool
    var cash: real
    var orders: map<string, Update>
    var positions: map<string, Position>
    var events: seq<Event>

    function State(): BrokerState
      reads this
    {
      BrokerState(connected, cash, orders, positions, events)
    }

    constructor (initialCash: real)
      ensures State() == BrokerState(false, initialCash, map[], map[], [])
    {
      connected, cash, orders, positions, events := false, initialCash, map[], map[], [];
    }

    method Connect()
      modifies this
      ensures State() == old(State()).(connected := true)
    {
      connected := true;
    }

    method Disconnect()
      modifies this
      ensures State() == old(State()).(connected := false)
    {
      connected := false;
    }

    method SubmitOrder(o: Order) returns (r: Result<Update, BookError>)
      modifies this
      ensures (State(), r) == Submitted(old(State()), o)
    {
      if !connected { return Err(NotConnected); }
      if o.id == "" { return Err(MissingId); }
      if o.id in orders { return Ok(orders[o.id]); }
      var update := Update(o.id, |orders| + 1, AllFilled);
      var fill := Fill(o.strategy, o.contract, o.side, o.quantity, o.price, Fee(o), |orders| + 1, o.id);
      orders := orders[o.id := update];
      ApplyFill(fill);
      events := events + [Updated(update), Executed(fill)];
      return Ok(update);
    }

    method ApplyFill(f: Fill)
      modifies this
      ensures State() == AfterFill(old(State()), f)
    {
      var signed := if f.side == Buy then f.quantity else -f.quantity;
      cash := cash - (Value(signed, f.price, f.contract.multiplier) + f.fees);
      var key := f.contract.key;
      var held := if key in positions then positions[key].quantity else 0.0;
      var quantity := held + signed;
      if quantity == 0.0 {
        positions := positions - {key};
        return;
      }
      var average;
      if key !in positions || held == 0.0 || held * signed > 0.0 {
        var cost := if key in positions then Cost(held, positions[key].avg) else 0.0;
        average := Average(cost + Cost(signed, f.price), quantity);
      } else {
        average := positions[key].avg;
      }
      positions := positions[key := Position(f.contract, quantity, average, f.price,
                                             Value(quantity, f.price, f.contract.multiplier))];
    }

    /** Every order is filled at once, so a known order has nothing left to cancel. */
    method CancelOrder(id: string) returns (r: Result<Update, BookError>)
      requires forall k <- orders :: orders[k].status == AllFilled
      ensures r == if !connected then Err(NotConnected) else if id in orders then Ok(orders[id]) else Err(UnknownOrder)
    {
      if !connected { return Err(NotConnected); }
      if id !in orders { return Err(UnknownOrder); }
      return Ok(orders[id]);
    }

    method DrainEvents() returns (drained: seq<Event>)
      modifies this
      ensures drained == old(events) && State() == old(State()).(events := [])
    {
      drained := events;
      events := [];
    }

    method UpdateQuote(key: string, mid: Option<real>, last: Option<real>, bid: Option<real>, ask: Option<real>)
      modifies this
      ensures State() == Marked(old(State()), key, Or4(mid, last, bid, ask))
    {
      var mark := Or4(mid, last, bid, ask);
      if key !in positions || mark.None? { return; }
      var p := positions[key];
      positions := positions[key := p.(mark := mark.value, notional := Value(p.quantity, mark.value, p.contract.multiplier))];
    }

    method NetLiquidation() returns (net: real)
      ensures net == cash + MarketValue(positions)
    {
      var market, todo := 0.0, positions.Keys;
      assert Restrict(positions, todo) == positions;
      while todo != {}
        invariant todo <= positions.Keys
        invariant market + MarketValue(Restrict(positions, todo)) == MarketValue(positions)
        decreases todo
      {
        var k :| k in todo;
        OneMorePosition(positions, todo, k);
        market := market + positions[k].notional;
        todo := todo - {k};
      }
      assert Restrict(positions, {}) == map[];
      return cash + market;
    }
  }

  function Notionals(ps: map<string, Position>): map<string, real> { map k | k in ps :: ps[k].notional }

  ghost function MarketValue(ps: map<string, Position>): real { Sum(Notionals(ps)) }

  function Restrict<V>(m: map<string, V>, ks: set<string>): map<string, V> { map k | k in ks && k in m :: m[k] }

  lemma {:induction false} OneMorePosition(ps: map<string, Position>, todo: set<string>, k: string)
    requires todo <= ps.Keys && k in todo
    ensures MarketValue(Restrict(ps, todo)) == ps[k].notional + MarketValue(Restrict(ps, todo - {k}))
  {
    SumRemove(Notionals(Restrict(ps, todo)), k);
    assert Notionals(Restrict(ps, todo)) - {k} == Notionals(Restrict(ps, todo - {k}));
  }

  // ------------------------------------------------------------------ order manager

  datatype Held = Held(quantity: real, avg: real, mark: real)

  datatype OmsState = OmsState(
    orders: map<string, OrderStatus>, fills: set<nat>, positions: map<(string, string), Held>)

  /** The manager's position after a fill, written the way it updates its row. */
  function OmsPosition(p: Option<Held>, f: Fill): Option<Held> {
    var signed := Signed(f.side, f.quantity);
    var row := if p.Some? then p.value else Held(0.0, f.price, f.price);
    var resulting := row.quantity + signed;
    if resulting == 0.0 then None
    else
      var avg :=
        if row.quantity == 0.0 || row.quantity * signed > 0.0
        then Average(Cost(row.quantity, row.avg) + Cost(signed, f.price), resulting)
        else row.avg;
      Some(Held(resulting, avg, f.price))
  }

  function Booked(m: OmsState, f: Fill): OmsState {
    if f.orderId == "" || f.orderId !in m.orders || f.execId in m.fills then m
    else
      var key := (f.strategy, f.contract.key);
      m.(fills := m.fills + {f.execId}, positions := Put(m.positions, key, OmsPosition(Lookup(m.positions, key), f)))
  }

  function UpdateApplied(m: OmsState, u: Update): OmsState {
    if u.orderId !in m.orders then m else m.(orders := m.orders[u.orderId := u.status])
  }

  function Applied(m: OmsState, e: Event): OmsState {
    match e
    case Updated(u) => UpdateApplied(m, u)
    case Executed(f) => Booked(m, f)
  }

  function AppliedAll(m: OmsState, es: seq<Event>): OmsState {
    if es == [] then m else Applied(AppliedAll(m, es[..|es| - 1]), es[|es| - 1])
  }

  datatype World = World(broker: BrokerState, oms: OmsState)

  /** A submission through the manager, on both sides. */
  function OmsSubmitted(w: World, o: Order): (World, Result<Update, BookError>) {
    if o.id in w.oms.orders then (w, Ok(Update(o.id, 0, w.oms.orders[o.id])))
    else
      var pending := w.oms.(orders := w.oms.orders[o.id := PendingSubmit]);
      var (b, r) := Submitted(w.broker, o);
      match r
      case Err(e) => (World(b, pending.(orders := pending.orders[o.id := OrderRejected])), Err(e))
      case Ok(update) => (World(b, UpdateApplied(pending, update)), Ok(update))
  }

  class OrderManager {
    const broker: SimulatedBroker
    var orders: map<string, OrderStatus>
    var fills: set<nat>
    var positions: map<(string, string), Held>

    function State(): OmsState
      reads this
    {
      OmsState(orders, fills, positions)
    }

    function Both(): World
      reads this, broker
    {
      World(broker.State(), State())
    }

    constructor (broker: SimulatedBroker)
      ensures this.broker == broker && State() == OmsState(map[], {}, map[])
    {
      this.broker, orders, fills, positions := broker, map[], {}, map[];
    }

    /** The id has been generated by now; the row is written before the broker is called. */
    method Submit(o: Order) returns (r: Result<Update, BookError>)
      modifies this, broker
      ensures (Both(), r) == OmsSubmitted(old(Both()), o)
    {
      if o.id in orders { return Ok(Update(o.id, 0, orders[o.id])); }
      orders := orders[o.id := PendingSubmit];
      r := broker.SubmitOrder(o);
      if r.Err? {
        orders := orders[o.id := OrderRejected];
        return;
      }
      ApplyOrderUpdate(r.value);
    }

    method Poll() returns (events: seq<Event>)
      modifies this, broker
      ensures events == old(broker.events)
      ensures Both() == World(old(broker.State()).(events := []), AppliedAll(old(State()), events))
    {
      events := broker.DrainEvents();
      for i := 0 to |events|
        invariant broker.State() == old(broker.State()).(events := [])
        invariant State() == AppliedAll(old(State()), events[..i])
      {
        assert events[..i + 1][..i] == events[..i];
        match events[i]
        case Updated(u) => ApplyOrderUpdate(u);
        case Executed(f) => ApplyFill(f);
      }
      assert events[..|events|] == events;
    }

    method ApplyOrderUpdate(u: Update)
      modifies this
      ensures State() == UpdateApplied(old(State()), u)
    {
      if u.orderId !in orders { return; }
      orders := orders[u.orderId := u.status];
    }

    method ApplyFill(f: Fill)
      modifies this
      ensures State() == Booked(old(State()), f)
    {
      if f.orderId == "" || f.orderId !in orders || f.execId in fills { return; }
      fills := fills + {f.execId};
      UpdatePosition(f);
    }

    method UpdatePosition(f: Fill)
      modifies `positions
      ensures var key := (f.strategy, f.contract.key);
        positions == Put(old(positions), key, OmsPosition(Lookup(old(positions), key), f))
    {
      var key := (f.strategy, f.contract.key);
      var signed := if f.side == Buy then f.quantity else -f.quantity;
      var row := if key in positions then positions[key] else Held(0.0, f.price, f.price);
      var previous := row.quantity;
      var resulting := previous + signed;
      if resulting == 0.0 {
        positions := positions - {key};
        return;
      }
      if previous == 0.0 || previous * signed > 0.0 {
        var cost := Cost(previous, row.avg) + Cost(signed, f.price);
        row := row.(avg := Average(cost, resulting));
      }
      row := row.(quantity := resulting, mark := f.price);
      positions := positions[key := row];
    }
  }

  // -------------------------------------------------------------- the two books agree

  predicate Same(a: Option<Position>, b: Option<Held>) {
    && (a.Some? <==> b.Some?)
    && (a.Some? ==> a.value.quantity == b.value.quantity && a.value.avg == b.value.avg)
  }

  predicate Open(p: Option<Position>) { p.Some? ==> p.value.quantity != 0.0 }

  /** The two position updates, written differently, do the same. */
  lemma {:induction false} SamePosition(a: Option<Position>, b: Option<Held>, f: Fill)
    requires Same(a, b) && Open(a)
    ensures Same(BrokerPosition(a, f), OmsPosition(b, f)) && Open(BrokerPosition(a, f))
  {
    assert Cost(0.0, f.price) == 0.0;
  }

  ghost predicate Mirrors(ps: map<string, Position>, hs: map<(string, string), Held>, strategy: string) {
    forall k: string :: Same(Lookup(ps, k), Lookup(hs, (strategy, k))) && Open(Lookup(ps, k))
  }

  lemma {:induction false} MirrorsAfterFill(ps: map<string, Position>, hs: map<(string, string), Held>, f: Fill)
    requires Mirrors(ps, hs, f.strategy)
    ensures var k := f.contract.key; var key := (f.strategy, k);
      Mirrors(Put(ps, k, BrokerPosition(Lookup(ps, k), f)), Put(hs, key, OmsPosition(Lookup(hs, key), f)), f.strategy)
  {
    var k := f.contract.key;
    var key := (f.strategy, k);
    var ps', hs' := Put(ps, k, BrokerPosition(Lookup(ps, k), f)), Put(hs, key, OmsPosition(Lookup(hs, key), f));
    SamePosition(Lookup(ps, k), Lookup(hs, key), f);
    forall j: string ensures Same(Lookup(ps', j), Lookup(hs', (f.strategy, j))) && Open(Lookup(ps', j)) {
      if j != k { assert Lookup(ps', j) == Lookup(ps, j) && Lookup(hs', (f.strategy, j)) == Lookup(hs, (f.strategy, j)); }
    }
  }

  /** An undrained fill is of a known order, of the one strategy, and new to the manager. */
  predicate FreshFill(e: Event, m: OmsState, strategy: string, last: nat) {
    e.Executed? ==>
      && e.fill.orderId != "" && e.fill.orderId in m.orders && e.fill.strategy == strategy
      && e.fill.execId !in m.fills && e.fill.execId <= last
  }

  ghost predicate EventsFresh(es: seq<Event>, m: OmsState, strategy: string, last: nat) {
    && (forall i | 0 <= i < |es| :: FreshFill(es[i], m, strategy, last))
    && (forall i, j | 0 <= i < j < |es| && es[i].Executed? && es[j].Executed? :: es[i].fill.execId != es[j].fill.execId)
  }

  /** Order rows other than those of the fills do not matter to the book. */
  lemma {:induction false} OrdersIrrelevant(m: OmsState, n: OmsState, es: seq<Event>)
    requires m.fills == n.fills && m.positions == n.positions
    requires forall i | 0 <= i < |es| && es[i].Executed? :: es[i].fill.orderId in m.orders && es[i].fill.orderId in n.orders
    ensures AppliedAll(m, es).positions == AppliedAll(n, es).positions && AppliedAll(m, es).fills == AppliedAll(n, es).fills
    ensures AppliedAll(m, es).orders.Keys == m.orders.Keys && AppliedAll(n, es).orders.Keys == n.orders.Keys
  {
    if es != [] { OrdersIrrelevant(m, n, es[..|es| - 1]); }
  }

  lemma {:induction false} FillsBounded(m: OmsState, es: seq<Event>, strategy: string, last: nat)
    requires EventsFresh(es, m, strategy, last) && forall x <- m.fills :: x <= last
    ensures forall x <- AppliedAll(m, es).fills :: x <= last
  {
    if es != [] { FillsBounded(m, es[..|es| - 1], strategy, last); }
  }

  ghost predicate Inv(w: World, strategy: string) {
    var b, m := w.broker, w.oms;
    && b.orders.Keys <= m.orders.Keys
    && (forall x <- m.fills :: x <= |b.orders|)
    && EventsFresh(b.events, m, strategy, |b.orders|)
    && Mirrors(b.positions, AppliedAll(m, b.events).positions, strategy)
  }

  datatype Op = Submit(order: Order) | Poll | Quote(key: string, mark: Option<real>) | Connect | Disconnect

  function Next(w: World, op: Op): World {
    match op
    case Submit(o) => OmsSubmitted(w, o).0
    case Poll => World(w.broker.(events := []), AppliedAll(w.oms, w.broker.events))
    case Quote(key, mark) => w.(broker := Marked(w.broker, key, mark))
    case Connect => w.(broker := w.broker.(connected := true))
    case Disconnect => w.(broker := w.broker.(connected := false))
  }

  /** The broker accepts the order: connected, with an id, and new to the manager. */
  predicate Fills(w: World, op: Op) {
    op.Submit? && op.order.id !in w.oms.orders && op.order.id !in w.broker.orders && w.broker.connected && op.order.id != ""
  }

  lemma {:induction false} RowAdded(w: World, id: string, status: OrderStatus, strategy: string)
    requires Inv(w, strategy)
    ensures Inv(w.(oms := w.oms.(orders := w.oms.orders[id := status])), strategy)
  {
    OrdersIrrelevant(w.oms, w.oms.(orders := w.oms.orders[id := status]), w.broker.events);
  }

  lemma {:induction false} FillAdded(m: OmsState, es: seq<Event>, update: Update, f: Fill)
    requires f.orderId != "" && f.orderId in m.orders && f.execId !in AppliedAll(m, es).fills
    requires AppliedAll(m, es).orders.Keys == m.orders.Keys
    ensures var before := AppliedAll(m, es); var key := (f.strategy, f.contract.key);
      AppliedAll(m, es + [Updated(update), Executed(f)]).positions
        == Put(before.positions, key, OmsPosition(Lookup(before.positions, key), f))
  {
    var one, two := es + [Updated(update)], es + [Updated(update), Executed(f)];
    assert one[..|es|] == es && two[..|es| + 1] == one;
  }

  lemma {:induction false} EventsGrow(es: seq<Event>, m: OmsState, strategy: string, last: nat, update: Update, f: Fill)
    requires EventsFresh(es, m, strategy, last) && forall x <- m.fills :: x <= last
    requires f.execId == last + 1 && f.orderId != "" && f.orderId in m.orders && f.strategy == strategy
    ensures EventsFresh(es + [Updated(update), Executed(f)], m, strategy, last + 1)
  {
    var all := es + [Updated(update), Executed(f)];
    forall i | 0 <= i < |all| ensures FreshFill(all[i], m, strategy, last + 1) {
      if i < |es| { assert FreshFill(es[i], m, strategy, last); }
    }
    forall i, j | 0 <= i < j < |all| && all[i].Executed? && all[j].Executed? ensures all[i].fill.execId != all[j].fill.execId {
      assert i < |es| && FreshFill(es[i], m, strategy, last);
    }
  }

  lemma {:induction false} SubmittedMirrors(b: BrokerState, m: OmsState, update: Update, f: Fill, last: nat)
    requires EventsFresh(b.events, m, f.strategy, last) && forall x <- m.fills :: x <= last
    requires f.execId == last + 1 && f.orderId != "" && f.orderId in m.orders
    requires Mirrors(b.positions, AppliedAll(m, b.events).positions, f.strategy)
    ensures Mirrors(AfterFill(b, f).positions,
                    AppliedAll(m, b.events + [Updated(update), Executed(f)]).positions, f.strategy)
  {
    AppliedKeys(m, b.events);
    FillsBounded(m, b.events, f.strategy, last);
    FillAdded(m, b.events, update, f);
    MirrorsAfterFill(b.positions, AppliedAll(m, b.events).positions, f);
  }

  lemma {:induction false} SubmitKeeps(w: World, o: Order, strategy: string)
    requires Inv(w, strategy) && Fills(w, Submit(o)) && o.strategy == strategy
    ensures Inv(Next(w, Submit(o)), strategy)
  {
    var b, last := w.broker, |w.broker.orders|;
    var update, fill := Update(o.id, last + 1, AllFilled), FillOf(o, last + 1);
    var m := w.oms.(orders := w.oms.orders[o.id := AllFilled]);
    RowAdded(w, o.id, AllFilled, strategy);
    EventsGrow(b.events, m, strategy, last, update, fill);
    SubmittedMirrors(b, m, update, fill, last);
    SubmitEffect(w, o);
  }

  lemma {:induction false} SubmitEffect(w: World, o: Order)
    requires Fills(w, Submit(o))
    ensures var last := |w.broker.orders|; var w' := Next(w, Submit(o));
      var update, fill := Update(o.id, last + 1, AllFilled), FillOf(o, last + 1);
      && w'.oms == w.oms.(orders := w.oms.orders[o.id := AllFilled])
      && w'.broker.orders == w.broker.orders[o.id := update] && |w'.broker.orders| == last + 1
      && w'.broker.positions == AfterFill(w.broker, fill).positions
      && w'.broker.cash == AfterFill(w.broker, fill).cash
      && w'.broker.events == w.broker.events + [Updated(update), Executed(fill)]
  {
    assert w.oms.orders[o.id := PendingSubmit][o.id := AllFilled] == w.oms.orders[o.id := AllFilled];
  }

  lemma {:induction false} QuoteKeeps(w: World, key: string, mark: Option<real>, strategy: string)
    requires Inv(w, strategy)
    ensures Inv(Next(w, Quote(key, mark)), strategy)
  {
    var ps, ps' := w.broker.positions, Marked(w.broker, key, mark).positions;
    forall k: string ensures Same(Lookup(ps', k), Lookup(AppliedAll(w.oms, w.broker.events).positions, (strategy, k)))
                             && Open(Lookup(ps', k))
    {
      assert Same(Lookup(ps, k), Lookup(AppliedAll(w.oms, w.broker.events).positions, (strategy, k))) && Open(Lookup(ps, k));
    }
  }

  lemma {:induction false} StepKeeps(w: World, op: Op, strategy: string)
    requires Inv(w, strategy) && (op.Submit? ==> op.order.strategy == strategy)
    ensures Inv(Next(w, op), strategy)
  {
    match op
    case Submit(o) =>
      if Fills(w, op) {
        SubmitKeeps(w, o, strategy);
      } else if o.id !in w.oms.orders {
        assert o.id !in w.broker.orders;
        RowAdded(w, o.id, OrderRejected, strategy);
        assert w.oms.orders[o.id := PendingSubmit][o.id := OrderRejected] == w.oms.orders[o.id := OrderRejected];
      }
    case Poll => FillsBounded(w.oms, w.broker.events, strategy, |w.broker.orders|); AppliedKeys(w.oms, w.broker.events);
    case Quote(key, mark) => QuoteKeeps(w, key, mark, strategy);
    case _ =>
  }

  lemma {:induction false} AppliedKeys(m: OmsState, es: seq<Event>)
    ensures AppliedAll(m, es).orders.Keys == m.orders.Keys
  {
    if es != [] { AppliedKeys(m, es[..|es| - 1]); }
  }

  ghost predicate Run(ws: seq<World>, ops: seq<Op>, cash: real, strategy: string) {
    && |ws| == |ops| + 1
    && ws[0] == World(BrokerState(false, cash, map[], map[], []), OmsState(map[], {}, map[]))
    && (forall i | 0 <= i < |ops| :: ws[i + 1] == Next(ws[i], ops[i]))
    && (forall i | 0 <= i < |ops| && ops[i].Submit? :: ops[i].order.strategy == strategy)
  }

  /**
   From an empty database and one strategy: for every instrument the broker's quantity and
   average price are those of the manager's book once undrained events are applied, so right
   after a poll the two books agree.
   */
  lemma {:induction false} BooksAgree(ws: seq<World>, ops: seq<Op>, cash: real, strategy: string, i: nat)
    requires Run(ws, ops, cash, strategy) && i < |ws|
    ensures Inv(ws[i], strategy)
    ensures Mirrors(ws[i].broker.positions, AppliedAll(ws[i].oms, ws[i].broker.events).positions, strategy)
    ensures i > 0 && ops[i - 1].Poll? ==> Mirrors(ws[i].broker.positions, ws[i].oms.positions, strategy)
  {
    if i > 0 {
      BooksAgree(ws, ops, cash, strategy, i - 1);
      StepKeeps(ws[i - 1], ops[i - 1], strategy);
    }
  }

  // --------------------------------------------------------------------- equity

  /** The fills an operation causes. */
  function FillsBy(w: World, op: Op): seq<Fill> {
    if Fills(w, op) then [FillOf(op.order, |w.broker.orders| + 1)] else []
  }

  function AllFills(ws: seq<World>, ops: seq<Op>): seq<Fill>
    requires |ops| <= |ws|
  {
    if ops == [] then [] else AllFills(ws, ops[..|ops| - 1]) + FillsBy(ws[|ops| - 1], ops[|ops| - 1])
  }

  /** Result of a fill when its instrument is marked at `mark`. */
  function Gain(f: Fill, mark: real): real {
    Value(Signed(f.side, f.quantity), mark - f.price, f.contract.multiplier) - f.fees
  }

  function Gains(fs: seq<Fill>, marks: string -> real): real {
    if fs == [] then 0.0
    else
      var f := fs[|fs| - 1];
      Gains(fs[..|fs| - 1], marks) + Gain(f, marks(f.contract.key))
  }

  function Worths(ps: map<string, Position>, marks: string -> real): map<string, real> {
    map k | k in ps :: Value(ps[k].quantity, marks(k), ps[k].contract.multiplier)
  }

  /** What the positions are worth at the given marks. */
  ghost function Worth(ps: map<string, Position>, marks: string -> real): real { Sum(Worths(ps, marks)) }

  predicate PositionOk(p: Position, key: string, multiplier: string -> real) {
    p.contract.multiplier == multiplier(key) && p.notional == Value(p.quantity, p.mark, p.contract.multiplier)
  }

  ghost predicate PositionsOk(ps: map<string, Position>, multiplier: string -> real) {
    forall k <- ps :: PositionOk(ps[k], k, multiplier)
  }

  lemma {:induction false} ValueAdds(a: real, b: real, price: real, m: real)
    ensures Value(a + b, price, m) == Value(a, price, m) + Value(b, price, m)
  {
  }

  lemma {:induction false} ValueDiffers(q: real, mark: real, price: real, m: real)
    ensures Value(q, mark - price, m) == Value(q, mark, m) - Value(q, price, m)
  {
  }

  lemma {:induction false} WorthAfterFill(b: BrokerState, f: Fill, multiplier: string -> real, marks: string -> real)
    requires PositionsOk(b.positions, multiplier) && f.contract.multiplier == multiplier(f.contract.key)
    ensures PositionsOk(AfterFill(b, f).positions, multiplier)
    ensures var b' := AfterFill(b, f);
      b'.cash + Worth(b'.positions, marks) == b.cash + Worth(b.positions, marks) + Gain(f, marks(f.contract.key))
  {
    var k, signed, m := f.contract.key, Signed(f.side, f.quantity), f.contract.multiplier;
    var ps, ps' := b.positions, AfterFill(b, f).positions;
    var held := if k in ps then ps[k].quantity else 0.0;
    assert k in ps ==> PositionOk(ps[k], k, multiplier);
    ValueAdds(held, signed, marks(k), m);
    ValueDiffers(signed, marks(k), f.price, m);
    WorthMoves(ps, ps', k, held, held + signed, m, marks);
  }

  lemma {:induction false} WorthMoves(
    ps: map<string, Position>, ps': map<string, Position>, k: string, was: real, now: real, m: real,
    marks: string -> real)
    requires if k in ps then ps[k].quantity == was && ps[k].contract.multiplier == m else was == 0.0
    requires ps' - {k} == ps - {k}
    requires if k in ps' then ps'[k].quantity == now && ps'[k].contract.multiplier == m else now == 0.0
    ensures Worth(ps', marks) == Worth(ps, marks) - Value(was, marks(k), m) + Value(now, marks(k), m)
  {
    WorthWithout(ps, k, marks);
    WorthWithout(ps', k, marks);
    assert Value(0.0, marks(k), m) == 0.0;
  }

  lemma {:induction false} WorthWithout(ps: map<string, Position>, k: string, marks: string -> real)
    ensures Worth(ps, marks) == Worth(ps - {k}, marks)
      + if k in ps then Value(ps[k].quantity, marks(k), ps[k].contract.multiplier) else 0.0
  {
    assert Worths(ps - {k}, marks) == Worths(ps, marks) - {k};
    if k in ps { SumRemove(Worths(ps, marks), k); } else { assert Worths(ps, marks) - {k} == Worths(ps, marks); }
  }

  lemma {:induction false} QuoteWorth(
    b: BrokerState, key: string, mark: Option<real>, multiplier: string -> real, marks: string -> real)
    requires PositionsOk(b.positions, multiplier)
    ensures var b' := Marked(b, key, mark);
      && PositionsOk(b'.positions, multiplier) && b'.cash == b.cash
      && Worth(b'.positions, marks) == Worth(b.positions, marks)
  {
    assert Worths(Marked(b, key, mark).positions, marks) == Worths(b.positions, marks);
  }

  ghost predicate OneMultiplier(ops: seq<Op>, multiplier: string -> real) {
    forall i | 0 <= i < |ops| && ops[i].Submit? ::
      ops[i].order.contract.multiplier == multiplier(ops[i].order.contract.key)
  }

  lemma {:induction false} FilledEquity(w: World, o: Order, multiplier: string -> real, marks: string -> real)
    requires Fills(w, Submit(o)) && PositionsOk(w.broker.positions, multiplier)
    requires o.contract.multiplier == multiplier(o.contract.key)
    ensures var b := Next(w, Submit(o)).broker; var f := FillOf(o, |w.broker.orders| + 1);
      && PositionsOk(b.positions, multiplier)
      && b.cash + Worth(b.positions, marks)
           == w.broker.cash + Worth(w.broker.positions, marks) + Gain(f, marks(f.contract.key))
  {
    SubmitEffect(w, o);
    WorthAfterFill(w.broker, FillOf(o, |w.broker.orders| + 1), multiplier, marks);
  }

  lemma {:induction false} EquityStep(w: World, op: Op, multiplier: string -> real, marks: string -> real)
    requires PositionsOk(w.broker.positions, multiplier)
    requires op.Submit? ==> op.order.contract.multiplier == multiplier(op.order.contract.key)
    ensures var w' := Next(w, op); var fs := FillsBy(w, op);
      && PositionsOk(w'.broker.positions, multiplier)
      && w'.broker.cash + Worth(w'.broker.positions, marks)
           == w.broker.cash + Worth(w.broker.positions, marks)
              + if fs == [] then 0.0 else Gain(fs[0], marks(fs[0].contract.key))
  {
    if Fills(w, op) {
      FilledEquity(w, op.order, multiplier, marks);
    } else if op.Quote? {
      QuoteWorth(w.broker, op.key, op.mark, multiplier, marks);
    } else {
      QuietEquity(w, op);
    }
  }

  lemma {:induction false} GainsGrow(before: seq<Fill>, fs: seq<Fill>, marks: string -> real)
    requires |fs| <= 1
    ensures Gains(before + fs, marks)
         == Gains(before, marks) + if fs == [] then 0.0 else Gain(fs[0], marks(fs[0].contract.key))
  {
    if fs == [] { assert before + fs == before; } else { assert (before + fs)[..|before|] == before; }
  }

  /** At any marks: cash plus the worth of the positions is the initial cash plus the result of every fill. */
  lemma {:induction false} EquityAtAnyMarks(
    ws: seq<World>, ops: seq<Op>, cash: real, strategy: string, i: nat, multiplier: string -> real,
    marks: string -> real)
    requires Run(ws, ops, cash, strategy) && i < |ws| && OneMultiplier(ops, multiplier)
    ensures PositionsOk(ws[i].broker.positions, multiplier)
    ensures ws[i].broker.cash + Worth(ws[i].broker.positions, marks) == cash + Gains(AllFills(ws, ops[..i]), marks)
    decreases i
  {
    if i == 0 {
      assert Worths(ws[0].broker.positions, marks) == map[];
    } else {
      EquityAtAnyMarks(ws, ops, cash, strategy, i - 1, multiplier, marks);
      assert ops[..i][..i - 1] == ops[..i - 1] && ws[i] == Next(ws[i - 1], ops[i - 1]);
      EquityStep(ws[i - 1], ops[i - 1], multiplier, marks);
      GainsGrow(AllFills(ws, ops[..i - 1]), FillsBy(ws[i - 1], ops[i - 1]), marks);
    }
  }

  lemma {:induction false} QuietEquity(w: World, op: Op)
    requires !Fills(w, op) && !op.Quote?
    ensures Next(w, op).broker.cash == w.broker.cash && Next(w, op).broker.positions == w.broker.positions
  {
  }

  /** The reported net liquidation value is the initial cash plus the result of every fill, less fees. */
  lemma {:induction false} EquityConserved(
    ws: seq<World>, ops: seq<Op>, cash: real, strategy: string, i: nat, multiplier: string -> real,
    marks: string -> real)
    requires Run(ws, ops, cash, strategy) && i < |ws| && OneMultiplier(ops, multiplier)
    requires forall k <- ws[i].broker.positions :: marks(k) == ws[i].broker.positions[k].mark
    ensures ws[i].broker.cash + MarketValue(ws[i].broker.positions) == cash + Gains(AllFills(ws, ops[..i]), marks)
  {
    EquityAtAnyMarks(ws, ops, cash, strategy, i, multiplier, marks);
    var ps := ws[i].broker.positions;
    forall k | k in ps ensures Worths(ps, marks)[k] == Notionals(ps)[k] { assert PositionOk(ps[k], k, multiplier); }
    assert Worths(ps, marks) == Notionals(ps);
  }
}
