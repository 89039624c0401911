/** Position keys, the position effect of executions, and the comparison with the broker. */
module Positions {
  import opened Wrappers
  import opened Orders
  import opened Executions

  datatype PositionKey =
    | ConidKey(account: string, conid: int)
    | ContractKey(account: string, assetType: AssetType, symbol: string, currency: string,
                  venue: Option<string>, expiry: Option<int>, right: Option<Right>, strike: Option<real>)

  function KeyFor(account: string, i: Instrument, venue: Option<string>): PositionKey {
    if i.conid.Some? && i.conid.value != 0 then ConidKey(account, i.conid.value)
    else ContractKey(account, i.assetType, i.symbol, i.currency, venue, i.expiry, i.right, i.strike)
  }

  datatype Position = Position(account: string, instrument: Instrument, quantity: real)

  function PositionKeyOf(p: Position): PositionKey { KeyFor(p.account, p.instrument, p.instrument.venue) }

  type Book = map<PositionKey, real>

  // ------------------------------------------------------------ execution effects

  datatype Delta = Delta(key: PositionKey, quantity: real)

  predicate UsableLeg(l: RawLeg) {
    l.conid.Some? && l.ratio.Some? && l.ratio.value > 0.0 && l.action.Some?
  }

  function LegMove(signed: real, l: RawLeg): real
    requires UsableLeg(l)
  {
    signed * if l.action.value == Buy then l.ratio.value else -l.ratio.value
  }

  function LegDelta(account: string, signed: real, l: RawLeg): seq<Delta> {
    if !UsableLeg(l) then []
    else [Delta(ConidKey(account, l.conid.value), LegMove(signed, l))]
  }

  function LegDeltas(account: string, signed: real, legs: seq<RawLeg>): seq<Delta> {
    if legs == [] then [] else LegDelta(account, signed, legs[0]) + LegDeltas(account, signed, legs[1..])
  }

  function SignedQuantity(e: Execution): real {
    if e.side == "BUY" || e.side == "BOT" then e.quantity else -e.quantity
  }

  /** A combo moves its legs, when any leg is usable; everything else moves its own contract. */
  function Deltas(e: Execution): seq<Delta> {
    var legs := if e.instrument.assetType == Combo
                then LegDeltas(e.account, SignedQuantity(e), e.instrument.comboLegs) else [];
    if legs != [] then legs
    else
      var venue := if e.exchange.Some? && e.exchange.value != "" then e.exchange else e.instrument.venue;
      [Delta(KeyFor(e.account, e.instrument, venue), SignedQuantity(e))]
  }

  function DeltaSum(ds: seq<Delta>, k: PositionKey): real {
    if ds == [] then 0.0
    else
      var d := ds[|ds| - 1];
      DeltaSum(ds[..|ds| - 1], k) + (if d.key == k then d.quantity else 0.0)
  }

  /** What the executions together do to the position under `k`. */
  function NetEffect(xs: seq<ExecRow>, k: PositionKey): real {
    if xs == [] then 0.0
    else NetEffect(xs[..|xs| - 1], k) + DeltaSum(Deltas(xs[|xs| - 1].execution), k)
  }

  /** The broker's quantity under `k`; the last row of a repeated key stands. */
  function BrokerQuantity(ps: seq<Position>, k: PositionKey): real {
    if ps == [] then 0.0
    else if PositionKeyOf(ps[|ps| - 1]) == k then ps[|ps| - 1].quantity
    else BrokerQuantity(ps[..|ps| - 1], k)
  }

  function BookOf(ps: seq<Position>): (b: Book)
    ensures forall k :: Get(b, k) == BrokerQuantity(ps, k)
  {
    if ps == [] then map[]
    else BookOf(ps[..|ps| - 1])[PositionKeyOf(ps[|ps| - 1]) := ps[|ps| - 1].quantity]
  }

  /** Broker quantity equals baseline plus managed executions, for this key. */
  predicate Explained(baseline: Book, managed: seq<ExecRow>, broker: seq<Position>, k: PositionKey) {
    BrokerQuantity(broker, k) == Get(baseline, k) + NetEffect(managed, k)
  }

  lemma {:induction false} SumOfBoth(a: seq<Delta>, b: seq<Delta>, k: PositionKey)
    ensures DeltaSum(a + b, k) == DeltaSum(a, k) + DeltaSum(b, k)
  {
    if b == [] {
      assert a + b == a;
    } else {
      assert (a + b)[..|a + b| - 1] == a + b[..|b| - 1];
      SumOfBoth(a, b[..|b| - 1], k);
    }
  }

  function Opposite(side: string): string { if side == "BUY" || side == "BOT" then "SLD" else "BOT" }

  /** One leg of a combo, traded on its own in its own direction. */
  function LegAlone(e: Execution, l: RawLeg): Execution
    requires UsableLeg(l)
  {
    e.(instrument := e.instrument.(assetType := OptionContract, conid := l.conid, comboLegs := []),
       quantity := e.quantity * l.ratio.value,
       side := if l.action.value == Buy then e.side else Opposite(e.side))
  }

  function LegsAlone(e: Execution, legs: seq<RawLeg>, k: PositionKey): real
    requires forall l <- legs :: UsableLeg(l)
  {
    if legs == [] then 0.0 else DeltaSum(Deltas(LegAlone(e, legs[0])), k) + LegsAlone(e, legs[1..], k)
  }

  lemma {:induction false} LegAloneDelta(e: Execution, l: RawLeg)
    requires UsableLeg(l) && l.conid.value != 0
    ensures Deltas(LegAlone(e, l)) == LegDelta(e.account, SignedQuantity(e), l)
  {
    var alone := LegAlone(e, l);
    assert KeyFor(alone.account, alone.instrument, alone.exchange) == ConidKey(e.account, l.conid.value);
    assert KeyFor(alone.account, alone.instrument, alone.instrument.venue) == ConidKey(e.account, l.conid.value);
    OppositeSign(e.side, alone.quantity);
    Signs(e.quantity, l.ratio.value);
    assert SignedQuantity(alone) == LegMove(SignedQuantity(e), l);
  }

  lemma {:induction false} Signs(q: real, r: real)
    ensures q * -r == -(q * r) && -q * r == -(q * r) && -q * -r == q * r
  {
  }

  lemma {:induction false} OppositeSign(side: string, q: real)
    ensures (if Opposite(side) == "BUY" || Opposite(side) == "BOT" then q else -q)
         == -(if side == "BUY" || side == "BOT" then q else -q)
  {
    assert "SLD"[0] == 'S' && "BOT"[0] == 'B' && "BUY"[0] == 'B';
  }

  lemma {:induction false} LegsAreTheirSum(e: Execution, legs: seq<RawLeg>, k: PositionKey)
    requires forall l <- legs :: UsableLeg(l) && l.conid.value != 0
    ensures DeltaSum(LegDeltas(e.account, SignedQuantity(e), legs), k) == LegsAlone(e, legs, k)
  {
    if legs != [] {
      var l, signed := legs[0], SignedQuantity(e);
      assert l in legs;
      LegAloneDelta(e, l);
      LegsAreTheirSum(e, legs[1..], k);
      SumOfBoth(LegDelta(e.account, signed, l), LegDeltas(e.account, signed, legs[1..]), k);
    }
  }

  /** A combo fill moves every position exactly as its legs would if each were traded on its own. */
  lemma {:induction false} ComboMovesItsLegs(e: Execution, k: PositionKey)
    requires e.instrument.assetType == Combo && e.instrument.comboLegs != []
    requires forall l <- e.instrument.comboLegs :: UsableLeg(l) && l.conid.value != 0
    ensures DeltaSum(Deltas(e), k) == LegsAlone(e, e.instrument.comboLegs, k)
  {
    assert e.instrument.comboLegs[0] in e.instrument.comboLegs;
    LegsAreTheirSum(e, e.instrument.comboLegs, k);
  }

  lemma {:induction false} LegNegates(account: string, signed: real, l: RawLeg, k: PositionKey)
    ensures DeltaSum(LegDelta(account, signed, l), k) + DeltaSum(LegDelta(account, -signed, l), k) == 0.0
  {
    if UsableLeg(l) {
      Signs(signed, if l.action.value == Buy then l.ratio.value else -l.ratio.value);
      assert LegMove(-signed, l) == -LegMove(signed, l);
      assert LegDelta(account, signed, l)[..0] == [] && LegDelta(account, -signed, l)[..0] == [];
    }
  }

  lemma {:induction false} LegsNegate(account: string, signed: real, legs: seq<RawLeg>, k: PositionKey)
    ensures DeltaSum(LegDeltas(account, signed, legs), k) + DeltaSum(LegDeltas(account, -signed, legs), k) == 0.0
    ensures |LegDeltas(account, signed, legs)| == |LegDeltas(account, -signed, legs)|
  {
    if legs != [] {
      var l := legs[0];
      LegNegates(account, signed, l, k);
      LegsNegate(account, signed, legs[1..], k);
      SumOfBoth(LegDelta(account, signed, l), LegDeltas(account, signed, legs[1..]), k);
      SumOfBoth(LegDelta(account, -signed, l), LegDeltas(account, -signed, legs[1..]), k);
    }
  }

  lemma {:induction false} OwnContractNegates(e: Execution, back: Execution, k: PositionKey)
    requires back == e.(side := Opposite(e.side))
    requires e.instrument.assetType != Combo || LegDeltas(e.account, SignedQuantity(e), e.instrument.comboLegs) == []
    requires |LegDeltas(e.account, SignedQuantity(e), e.instrument.comboLegs)|
          == |LegDeltas(e.account, SignedQuantity(back), e.instrument.comboLegs)|
    ensures DeltaSum(Deltas(e), k) + DeltaSum(Deltas(back), k) == 0.0
  {
    OppositeSign(e.side, e.quantity);
    assert Deltas(e)[..0] == [] && Deltas(back)[..0] == [];
  }

  /** Trading the same quantity back leaves every position where it was. */
  lemma {:induction false} OppositeExecutionsCancel(e: Execution, k: PositionKey)
    ensures DeltaSum(Deltas(e), k) + DeltaSum(Deltas(e.(side := Opposite(e.side))), k) == 0.0
  {
    var back, legs := e.(side := Opposite(e.side)), e.instrument.comboLegs;
    OppositeSign(e.side, e.quantity);
    assert SignedQuantity(back) == -SignedQuantity(e);
    LegsNegate(e.account, SignedQuantity(e), legs, k);
    if e.instrument.assetType != Combo || LegDeltas(e.account, SignedQuantity(e), legs) == [] {
      OwnContractNegates(e, back, k);
    }
  }

  // ------------------------------------------------------------------- comparison

  method AddDeltas(b: Book, ds: seq<Delta>) returns (r: Book)
    ensures forall k :: Get(r, k) == Get(b, k) + DeltaSum(ds, k)
  {
    r := b;
    for i := 0 to |ds|
      invariant forall k :: Get(r, k) == Get(b, k) + DeltaSum(ds[..i], k)
    {
      assert ds[..i + 1][..i] == ds[..i];
      r := r[ds[i].key := Get(r, ds[i].key) + ds[i].quantity];
    }
    assert ds[..|ds|] == ds;
  }

  /** `_position_differences`: exactly the keys whose quantity the executions do not explain. */
  method PositionDifferences(baseline: Book, broker: seq<Position>, managed: seq<ExecRow>)
    returns (differing: set<PositionKey>)
    ensures forall k :: k in differing <==> !Explained(baseline, managed, broker, k)
  {
    var local := baseline;
    for i := 0 to |managed|
      invariant forall k :: Get(local, k) == Get(baseline, k) + NetEffect(managed[..i], k)
    {
      assert managed[..i + 1][..i] == managed[..i];
      local := AddDeltas(local, Deltas(managed[i].execution));
    }
    assert managed[..|managed|] == managed;
    var theirs: Book := map[];
    for i := 0 to |broker|
      invariant forall k :: Get(theirs, k) == BrokerQuantity(broker[..i], k)
    {
      assert broker[..i + 1][..i] == broker[..i];
      theirs := theirs[PositionKeyOf(broker[i]) := broker[i].quantity];
    }
    assert broker[..|broker|] == broker;
    differing := {};
    var todo := local.Keys + theirs.Keys;
    while todo != {}
      invariant forall k :: k in differing <==>
        k in local.Keys + theirs.Keys && k !in todo && Get(local, k) != Get(theirs, k)
      decreases todo
    {
      var k :| k in todo;
      todo := todo - {k};
      if Get(local, k) != Get(theirs, k) { differing := differing + {k}; }
    }
  }
}
