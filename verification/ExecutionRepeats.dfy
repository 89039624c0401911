/** Repeated execution messages: exactly when an order still adds up, and what a revival does to it. */
module ExecutionRepeats {
  import opened Wrappers
  import opened Orders
  import opened OrderTable
  import opened Executions

  function Quantity(x: ExecRow, id: string): real { if Counts(x, id) then x.execution.quantity else 0.0 }

  function Amount(e: Execution): real { e.quantity * e.price }

  function Value(x: ExecRow, id: string): real { if Counts(x, id) then Amount(x.execution) else 0.0 }

  lemma {:induction false} QuantityReplaced(xs: seq<ExecRow>, k: nat, x: ExecRow, id: string)
    requires k < |xs|
    ensures LiveQuantity(xs[k := x], id) == LiveQuantity(xs, id) - Quantity(xs[k], id) + Quantity(x, id)
  {
    var last, ys := |xs| - 1, xs[k := x];
    if k == last {
      assert ys[..last] == xs[..last];
    } else {
      QuantityReplaced(xs[..last], k, x, id);
      assert ys[..last] == xs[..last][k := x];
    }
  }

  lemma {:induction false} ValueReplaced(xs: seq<ExecRow>, k: nat, x: ExecRow, id: string)
    requires k < |xs|
    ensures LiveValue(xs[k := x], id) == LiveValue(xs, id) - Value(xs[k], id) + Value(x, id)
  {
    var last, ys := |xs| - 1, xs[k := x];
    if k == last {
      assert ys[..last] == xs[..last];
    } else {
      ValueReplaced(xs[..last], k, x, id);
      assert ys[..last] == xs[..last][k := x];
    }
  }

  lemma {:induction false} LiveSumsSnoc(xs: seq<ExecRow>, x: ExecRow, id: string)
    ensures LiveQuantity(xs + [x], id) == LiveQuantity(xs, id) + Quantity(x, id)
    ensures LiveValue(xs + [x], id) == LiveValue(xs, id) + Value(x, id)
  {
    assert (xs + [x])[..|xs|] == xs;
  }

  lemma {:induction false} FirstDeliverySums(xs: seq<ExecRow>, e: Execution, id: string)
    requires Find(xs, e.execId) == |xs| && !HasPrior(xs, e)
    ensures var ys := UpsertRows(xs, e, Some(id));
      && LiveQuantity(ys, id) == LiveQuantity(xs, id) + e.quantity
      && LiveValue(ys, id) == LiveValue(xs, id) + e.quantity * e.price
  {
    LiveSumsAgree(xs, Superseded(xs, e), id);
    LiveSumsSnoc(Superseded(xs, e), ExecRow(e, RootId(e.execId), false, false, Some(id)), id);
  }

  lemma {:induction false} FillSumsIff(r: Row, corrects: bool, quantity: real, value: real)
    requires r.columns.quantity > 0.0
    ensures Sums(ApplyFill(r, corrects, quantity, value), quantity, value) <==> corrects || quantity >= r.progress.filled
  {
  }

  /**
   After a new execution id the order adds up if and only if it corrects a live version or the
   live executions now reach what the order already counted as filled.
   */
  lemma {:induction false} AggregatesAfterNewIff(t: Table, xs: seq<ExecRow>, e: Execution, id: string)
    requires id in t && t[id].columns.quantity > 0.0 && Find(xs, e.execId) == |xs|
    ensures Aggregated(UpsertOrder(t, xs, e, Some(id))[id], id, UpsertRows(xs, e, Some(id)))
      <==> HasPrior(xs, e) || LiveQuantity(xs, id) + e.quantity >= t[id].progress.filled
  {
    var ys := UpsertRows(xs, e, Some(id));
    FillSumsIff(t[id], HasPrior(xs, e), LiveQuantity(ys, id), LiveValue(ys, id));
    if !HasPrior(xs, e) { FirstDeliverySums(xs, e, id); }
  }

  lemma {:induction false} QuotientIs(x: real, y: real, m: real)
    requires y > 0.0
    ensures x / y == m <==> x == m * y
  {
  }

  lemma {:induction false} SameMeanIff(q: real, v: real, more: real, price: real)
    requires q > 0.0 && more > 0.0
    ensures (v + more * price) / (q + more) == v / q <==> price == v / q
  {
    var mean := v / q;
    QuotientIs(v, q, mean);
    QuotientIs(v + more * price, q + more, mean);
    QuotientIs(more * price, more, mean);
    assert mean * (q + more) == mean * q + mean * more;
    QuotientIs(more * price, more, price);
  }

  lemma {:induction false} MoreStillSumsIff(r: Row, q: real, v: real, more: real, price: real)
    requires Sums(r, q, v) && more > 0.0 && q >= 0.0
    ensures Sums(r, q + more, v + more * price)
      <==> r.progress.filled == r.columns.quantity && price == r.progress.avgFillPrice
  {
    if q > 0.0 { SameMeanIff(q, v, more, price); }
  }

  /** Where, in the execution table, a repeat strikes, and what it leaves there. */
  predicate RepeatsAt(xs: seq<ExecRow>, e: Execution, id: string, k: nat) {
    k < |xs| && k == Find(xs, e.execId) && xs[k].execution == e && xs[k].order == Some(id)
  }

  function RepeatedRow(e: Execution, id: string, corrects: bool): ExecRow {
    ExecRow(e, RootId(e.execId), corrects, false, Some(id))
  }

  lemma {:induction false} RefreshedSame(x: ExecRow, e: Execution, id: string, corrects: bool)
    requires x.execution == e
    ensures Refreshed(x, e, Some(id), corrects) == RepeatedRow(e, id, corrects)
  {
  }

  lemma {:induction false} RepeatSums(xs: seq<ExecRow>, e: Execution, id: string, k: nat)
    requires RepeatsAt(xs, e, id, k)
    ensures var ys := UpsertRows(xs, e, Some(id));
      && LiveQuantity(ys, id) == LiveQuantity(xs, id) + (if xs[k].superseded then e.quantity else 0.0)
      && LiveValue(ys, id) == LiveValue(xs, id) + (if xs[k].superseded then Amount(e) else 0.0)
  {
    var corrects := HasPrior(xs, e);
    RefreshedSame(xs[k], e, id, corrects);
    assert UpsertRows(xs, e, Some(id)) == xs[k := RepeatedRow(e, id, corrects)];
    QuantityReplaced(xs, k, RepeatedRow(e, id, corrects), id);
    ValueReplaced(xs, k, RepeatedRow(e, id, corrects), id);
    RowSums(xs[k], id);
    RowSums(RepeatedRow(e, id, corrects), id);
  }

  lemma {:induction false} RowSums(x: ExecRow, id: string)
    requires x.order == Some(id)
    ensures Quantity(x, id) == (if x.superseded then 0.0 else x.execution.quantity)
    ensures Value(x, id) == (if x.superseded then 0.0 else Amount(x.execution))
  {
  }

  lemma {:induction false} RepeatSumsIff(r: Row, q: real, v: real, back: bool, e: Execution)
    requires Sums(r, q, v) && e.quantity > 0.0 && q >= 0.0
    ensures Sums(r, q + (if back then e.quantity else 0.0), v + (if back then Amount(e) else 0.0))
      <==> !back || FullAtPrice(r, e.price)
  {
    if back { MoreStillSumsIff(r, q, v, e.quantity, e.price); }
  }

  predicate FullAtPrice(r: Row, price: real) {
    r.progress.filled == r.columns.quantity && price == r.progress.avgFillPrice
  }

  /**
   After a repeated execution id, which leaves the order alone, it still adds up if and only if
   the repeated version was live, or the order is full anyway and the version had its price.
   */
  lemma {:induction false} AggregatesAfterRepeatIff(r: Row, xs: seq<ExecRow>, e: Execution, id: string, k: nat)
    requires Aggregated(r, id, xs) && LiveQuantity(xs, id) >= 0.0 && RepeatsAt(xs, e, id, k) && e.quantity > 0.0
    ensures forall t | id in t && t[id] == r :: UpsertOrder(t, xs, e, Some(id)) == t
    ensures Aggregated(r, id, UpsertRows(xs, e, Some(id))) <==> !xs[k].superseded || FullAtPrice(r, e.price)
  {
    RepeatSums(xs, e, id, k);
    RepeatSumsIff(r, LiveQuantity(xs, id), LiveValue(xs, id), xs[k].superseded, e);
  }

  // ------------------------------------------------------------- a revival, step by step

  function FirstRow(e: Execution, root: string, order: Option<string>): ExecRow { ExecRow(e, root, false, false, order) }

  lemma {:induction false} SuffixesDiffer(root: string, a: string, b: string)
    requires a != b
    ensures root + "." + a != root + "." + b
  {
    assert (root + "." + a)[|root| + 1..] == a && (root + "." + b)[|root| + 1..] == b;
  }

  lemma {:induction false} CorrectedRows(e: Execution, c: Execution, root: string, id: string)
    requires RootId(e.execId) == root == RootId(c.execId) && e.execId != c.execId
    ensures UpsertRows([], e, Some(id)) == [FirstRow(e, root, Some(id))]
    ensures UpsertRows([FirstRow(e, root, Some(id))], c, Some(id))
      == [FirstRow(e, root, Some(id)).(superseded := true), ExecRow(c, root, true, false, Some(id))]
  {
    var xs := [FirstRow(e, root, Some(id))];
    assert PriorVersion(xs[0], c);
    assert Superseded([], e) == [];
    assert Superseded(xs, c) == [xs[0].(superseded := true)];
  }

  lemma {:induction false} RevivedRows(e: Execution, c: Execution, root: string, id: string)
    requires RootId(e.execId) == root == RootId(c.execId) && e.execId != c.execId
    ensures UpsertRows([FirstRow(e, root, Some(id)).(superseded := true), ExecRow(c, root, true, false, Some(id))], e, Some(id))
      == [ExecRow(e, root, true, false, Some(id)), ExecRow(c, root, true, false, Some(id))]
  {
    var xs := [FirstRow(e, root, Some(id)).(superseded := true), ExecRow(c, root, true, false, Some(id))];
    assert PriorVersion(xs[1], e);
  }

  lemma {:induction false} OneDelivery(t: Table, xs: seq<ExecRow>, e: Execution, id: string)
    requires id in t && MatchOrder(t, KeyOf(e)) == Some(id)
    ensures var t' := Upsert(t, xs, e).0;
      && id in t' && SameIdentities(t, t') && t'[id].columns == t[id].columns
      && Deliver(t, xs, [e]) == (t', UpsertRows(xs, e, Some(id)))
  {
    assert [e][1..] == [];
  }

  /** An execution and its correction leave one live version, and the order counts that. */
  lemma {:induction false} CorrectedTable(t: Table, e: Execution, c: Execution, root: string, id: string)
    requires RootId(e.execId) == root == RootId(c.execId) && e.execId != c.execId && id in t
    requires MatchOrder(t, KeyOf(e)) == Some(id) && MatchOrder(t, KeyOf(c)) == Some(id)
    ensures var (t', xs) := Deliver(t, [], [e, c]);
      && xs == [FirstRow(e, root, Some(id)).(superseded := true), ExecRow(c, root, true, false, Some(id))]
      && id in t' && SameIdentities(t, t') && t'[id].columns == t[id].columns
      && t'[id].progress.filled == Min(t[id].columns.quantity, c.quantity)
  {
    CorrectedRows(e, c, root, id);
    var (t1, xs1) := Upsert(t, [], e);
    OneDelivery(t, [], e, id);
    MatchDependsOnIdentity(t, t1, KeyOf(c));
    assert [e, c][1..] == [c];
    OneDelivery(t1, xs1, c, id);
    CorrectionCounts(xs1, e, c, root, id);
  }

  lemma {:induction false} CorrectionCounts(xs: seq<ExecRow>, e: Execution, c: Execution, root: string, id: string)
    requires RootId(e.execId) == root == RootId(c.execId) && e.execId != c.execId
    requires xs == [FirstRow(e, root, Some(id))]
    ensures Find(xs, c.execId) == |xs| && HasPrior(xs, c)
    ensures LiveQuantity(UpsertRows(xs, c, Some(id)), id) == c.quantity
  {
    CorrectedRows(e, c, root, id);
    assert PriorVersion(xs[0], c);
    var gone, now := xs[0].(superseded := true), ExecRow(c, root, true, false, Some(id));
    assert UpsertRows(xs, c, Some(id)) == ([] + [gone]) + [now];
    LiveSumsSnoc([], gone, id);
    LiveSumsSnoc([] + [gone], now, id);
  }

  /** The execution once more: two live versions, and the order as it was. */
  lemma {:induction false} RevivedTable(t: Table, e: Execution, c: Execution, root: string, id: string)
    requires RootId(e.execId) == root == RootId(c.execId) && e.execId != c.execId && id in t
    requires MatchOrder(t, KeyOf(e)) == Some(id) && MatchOrder(t, KeyOf(c)) == Some(id)
    ensures var (t', xs) := Deliver(t, [], [e, c, e]);
      && xs == [ExecRow(e, root, true, false, Some(id)), ExecRow(c, root, true, false, Some(id))]
      && id in t' && SameIdentities(t, t') && t' == Deliver(t, [], [e, c]).0
  {
    CorrectedTable(t, e, c, root, id);
    RevivedRows(e, c, root, id);
    DeliverLast(t, [], [e, c], e);
    assert [e, c] + [e] == [e, c, e];
    var (t2, xs2) := Deliver(t, [], [e, c]);
    MatchDependsOnIdentity(t, t2, KeyOf(e));
  }

  lemma {:induction false} DeliverLast(t: Table, xs: seq<ExecRow>, es: seq<Execution>, e: Execution)
    ensures var (t', ys) := Deliver(t, xs, es); Deliver(t, xs, es + [e]) == Upsert(t', ys, e)
    decreases |es|
  {
    if es == [] {
      assert ([] + [e])[1..] == [] && ([] + [e])[0] == e;
    } else {
      var (t1, xs1) := Upsert(t, xs, es[0]);
      assert (es + [e])[1..] == es[1..] + [e] && (es + [e])[0] == es[0];
      DeliverLast(t1, xs1, es[1..], e);
    }
  }

  /** A new fill next to two live versions of another. */
  lemma {:induction false} NextCountsAll(t: Table, xs: seq<ExecRow>, next: Execution, id: string)
    requires id in t && MatchOrder(t, KeyOf(next)) == Some(id) && t[id].columns.quantity > 0.0
    requires |xs| == 2 && Counts(xs[0], id) && Counts(xs[1], id) && RootsRight(xs)
    requires xs[0].root != RootId(next.execId) && xs[1].root != RootId(next.execId)
    requires t[id].progress.filled <= xs[0].execution.quantity + xs[1].execution.quantity + next.quantity
    ensures var t' := Upsert(t, xs, next).0;
      id in t' && t'[id].progress.filled
        == Min(t[id].columns.quantity, xs[0].execution.quantity + xs[1].execution.quantity + next.quantity)
  {
    assert xs == [xs[0]] + [xs[1]] && [xs[0]] == [] + [xs[0]];
    LiveSumsSnoc([], xs[0], id);
    LiveSumsSnoc([xs[0]], xs[1], id);
    FirstDeliverySums(xs, next, id);
  }

  /**
   Any execution redelivered after its correction leaves two live versions of one fill behind,
   while the order still counts the correction only; what is new next makes it count both.
   */
  lemma {:induction false} RevivalCountsTwice(
    t: Table, e: Execution, c: Execution, next: Execution, root: string, a: string, b: string, id: string)
    requires Digits(a) && Digits(b) && a != b && e.execId == root + "." + a && c.execId == root + "." + b
    requires RootId(next.execId) != root && id in t && t[id].columns.quantity > 0.0
    requires MatchOrder(t, KeyOf(e)) == Some(id) && MatchOrder(t, KeyOf(c)) == Some(id) && MatchOrder(t, KeyOf(next)) == Some(id)
    requires e.quantity > 0.0 && c.quantity > 0.0 && next.quantity > 0.0
    ensures var (t', xs) := Deliver(t, [], [e, c, e]);
      && |xs| == 2 && xs[0].root == root == xs[1].root && !xs[0].superseded && !xs[1].superseded
      && id in t' && t'[id].progress.filled == Min(t[id].columns.quantity, c.quantity)
      && var after := Upsert(t', xs, next).0;
         id in after && after[id].progress.filled
           == Min(t[id].columns.quantity, e.quantity + c.quantity + next.quantity)
  {
    VersionsShareRoot(root, a, b);
    SuffixesDiffer(root, a, b);
    RevivedFill(t, e, c, root, id);
    var (t', xs) := Deliver(t, [], [e, c, e]);
    MatchDependsOnIdentity(t, t', KeyOf(next));
    NextCountsAll(t', xs, next, id);
  }

  lemma {:induction false} RevivedFill(t: Table, e: Execution, c: Execution, root: string, id: string)
    requires RootId(e.execId) == root == RootId(c.execId) && e.execId != c.execId && id in t
    requires MatchOrder(t, KeyOf(e)) == Some(id) && MatchOrder(t, KeyOf(c)) == Some(id)
    ensures var (t', xs) := Deliver(t, [], [e, c, e]);
      && |xs| == 2 && RootsRight(xs) && Counts(xs[0], id) && Counts(xs[1], id) && xs[0].root == root == xs[1].root
      && xs[0].execution.quantity == e.quantity && xs[1].execution.quantity == c.quantity
      && id in t' && SameIdentities(t, t') && t'[id].columns == t[id].columns
      && t'[id].progress.filled == Min(t[id].columns.quantity, c.quantity)
  {
    CorrectedTable(t, e, c, root, id);
    RevivedTable(t, e, c, root, id);
  }
}
