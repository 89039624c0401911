/** Fill aggregation: execution versions, corrections and the order they add up to. */
module Executions {
  import opened Wrappers
  import opened Orders
  import opened OrderTable

  datatype Execution = Execution(
    execId: string, orderId: int, permanentId: Option<int>, clientId: Option<int>, account: string,
    instrument: Instrument, exchange: Option<string>, side: string, quantity: real, price: real,
    executedAt: int, orderRef: Option<string>)

  datatype ExecRow = ExecRow(
    execution: Execution, root: string, corrects: bool, superseded: bool, order: Option<string>)

  predicate Digits(s: string) {
    s != "" && forall c <- s :: '0' <= c <= '9'
  }

  /** Index of the last dot, or -1. */
  function LastDot(s: string): (i: int)
    ensures -1 <= i < |s|
    ensures i >= 0 ==> s[i] == '.'
    ensures forall j | i < j < |s| :: s[j] != '.'
  {
    if s == "" then -1
    else if s[|s| - 1] == '.' then |s| - 1
    else LastDot(s[..|s| - 1])
  }

  /** All versions of one fill share the id up to a numeric suffix. */
  function RootId(execId: string): string {
    var dot := LastDot(execId);
    if dot >= 0 && Digits(execId[dot + 1..]) then execId[..dot] else execId
  }

  /** Two corrections of one fill have the same root. */
  lemma {:induction false} VersionsShareRoot(root: string, a: string, b: string)
    requires Digits(a) && Digits(b)
    ensures RootId(root + "." + a) == root == RootId(root + "." + b)
  {
    SuffixStripped(root, a);
    SuffixStripped(root, b);
  }

  lemma {:induction false} SuffixStripped(root: string, a: string)
    requires Digits(a)
    ensures RootId(root + "." + a) == root
  {
    var s := root + "." + a;
    assert s[|root|] == '.' && s[|root| + 1..] == a && s[..|root|] == root;
    forall j | |root| < j < |s| ensures s[j] != '.' {
      assert s[j] == a[j - |root| - 1];
      assert s[j] in a;
    }
  }

  function KeyOf(e: Execution): BrokerKey {
    BrokerKey(Some(e.account), Some(e.orderId), e.clientId, e.permanentId, e.orderRef)
  }

  predicate PriorVersion(x: ExecRow, e: Execution) {
    x.root == RootId(e.execId) && x.execution.execId != e.execId && !x.superseded
  }

  predicate HasPrior(xs: seq<ExecRow>, e: Execution) {
    exists x :: x in xs && PriorVersion(x, e)
  }

  function Superseded(xs: seq<ExecRow>, e: Execution): (ys: seq<ExecRow>)
    ensures |ys| == |xs|
    ensures forall i | 0 <= i < |xs| :: ys[i] == if PriorVersion(xs[i], e) then xs[i].(superseded := true) else xs[i]
  {
    seq(|xs|, i requires 0 <= i < |xs| => if PriorVersion(xs[i], e) then xs[i].(superseded := true) else xs[i])
  }

  /** Position of the record of `execId`, or the number of records. */
  function Find(xs: seq<ExecRow>, execId: string): (k: nat)
    ensures k <= |xs| && forall i | 0 <= i < k :: xs[i].execution.execId != execId
    ensures k < |xs| ==> xs[k].execution.execId == execId
  {
    if xs == [] then 0
    else if xs[0].execution.execId == execId then 0
    else 1 + Find(xs[1..], execId)
  }

  predicate Counts(x: ExecRow, id: string) { x.order == Some(id) && !x.superseded }

  function LiveQuantity(xs: seq<ExecRow>, id: string): real {
    if xs == [] then 0.0
    else
      var x := xs[|xs| - 1];
      LiveQuantity(xs[..|xs| - 1], id) + (if Counts(x, id) then x.execution.quantity else 0.0)
  }

  function LiveValue(xs: seq<ExecRow>, id: string): real {
    if xs == [] then 0.0
    else
      var x := xs[|xs| - 1];
      LiveValue(xs[..|xs| - 1], id)
        + (if Counts(x, id) then x.execution.quantity * x.execution.price else 0.0)
  }

  /** A redelivered record takes the new values, keeping what the new message leaves out. */
  function Refreshed(x: ExecRow, e: Execution, order: Option<string>, corrects: bool): ExecRow {
    ExecRow(
      e.(permanentId := if e.permanentId.Some? then e.permanentId else x.execution.permanentId,
         clientId := if e.clientId.Some? then e.clientId else x.execution.clientId,
         orderRef := if e.orderRef.Some? then e.orderRef else x.execution.orderRef),
      RootId(e.execId), corrects, false, if order.Some? then order else x.order)
  }

  /** The execution table after a delivery that was linked to `order`. */
  function UpsertRows(xs: seq<ExecRow>, e: Execution, order: Option<string>): seq<ExecRow> {
    var k := Find(xs, e.execId);
    if k < |xs| then xs[k := Refreshed(xs[k], e, order, HasPrior(xs, e))]
    else Superseded(xs, e) + [ExecRow(e, RootId(e.execId), HasPrior(xs, e), false, order)]
  }

  /** The linked order is recomputed only when the execution id is new. */
  function UpsertOrder(t: Table, xs: seq<ExecRow>, e: Execution, order: Option<string>): Table
    requires order.Some? ==> order.value in t
  {
    if order.None? || Find(xs, e.execId) < |xs| then t
    else
      var id, ys := order.value, UpsertRows(xs, e, order);
      t[id := ApplyFill(t[id], HasPrior(xs, e), LiveQuantity(ys, id), LiveValue(ys, id))]
  }

  /** `upsert_execution` on the order table and the execution table. */
  function Upsert(t: Table, xs: seq<ExecRow>, e: Execution): (Table, seq<ExecRow>) {
    var order := MatchOrder(t, KeyOf(e));
    (UpsertOrder(t, xs, e, order), UpsertRows(xs, e, order))
  }

  // ------------------------------------------------------- one live version per root

  /** What uniqueness is about; the id type is left open so that ids are mere names. */
  datatype Version<I> = Version(id: I, root: I, live: bool)

  function Versions(xs: seq<ExecRow>): (vs: seq<Version<string>>)
    ensures |vs| == |xs|
    ensures forall i | 0 <= i < |xs| :: vs[i] == Version(xs[i].execution.execId, xs[i].root, !xs[i].superseded)
  {
    seq(|xs|, i requires 0 <= i < |xs| => Version(xs[i].execution.execId, xs[i].root, !xs[i].superseded))
  }

  ghost predicate LiveVersion<I>(vs: seq<Version<I>>, root: I) {
    exists j :: 0 <= j < |vs| && vs[j].root == root && vs[j].live
  }

  /** Unique ids, and each root has exactly one live version. */
  ghost predicate OneLive<I>(vs: seq<Version<I>>) {
    && (forall i, j | 0 <= i < j < |vs| :: vs[i].id != vs[j].id)
    && (forall i, j | 0 <= i < j < |vs| && vs[i].live && vs[j].live :: vs[i].root != vs[j].root)
    && (forall i {:trigger LiveVersion(vs, vs[i].root)} | 0 <= i < |vs| :: LiveVersion(vs, vs[i].root))
  }

  ghost predicate OneLivePerRoot(xs: seq<ExecRow>) { OneLive(Versions(xs)) }

  lemma {:induction false} NewVersionWins<I>(vs: seq<Version<I>>, ws: seq<Version<I>>, v: Version<I>)
    requires OneLive(vs) && v.live && (forall i | 0 <= i < |vs| :: vs[i].id != v.id)
    requires |ws| == |vs| + 1 && ws[|vs|] == v
    requires forall i | 0 <= i < |vs| :: ws[i] == if vs[i].root == v.root then vs[i].(live := false) else vs[i]
    ensures OneLive(ws)
  {
    forall i | 0 <= i < |ws| ensures LiveVersion(ws, ws[i].root) {
      if ws[i].root == v.root {
        assert ws[|vs|].live;
      } else {
        assert LiveVersion(vs, vs[i].root);
        var j :| 0 <= j < |vs| && vs[j].root == vs[i].root && vs[j].live;
        assert ws[j].live;
      }
    }
  }

  lemma {:induction false} RevivalBreaksIff<I>(vs: seq<Version<I>>, k: nat)
    requires OneLive(vs) && k < |vs|
    ensures OneLive(vs[k := vs[k].(live := true)]) <==> vs[k].live
  {
    var ws := vs[k := vs[k].(live := true)];
    assert LiveVersion(vs, vs[k].root);
    var j :| 0 <= j < |vs| && vs[j].root == vs[k].root && vs[j].live;
    assert ws[j].live && ws[k].live && ws[j].root == ws[k].root;
    assert vs[k].live ==> ws == vs;
  }

  lemma {:induction false} RepeatRevives(xs: seq<ExecRow>, e: Execution, order: Option<string>)
    requires RootsRight(xs) && Find(xs, e.execId) < |xs|
    ensures var k := Find(xs, e.execId);
      Versions(UpsertRows(xs, e, order)) == Versions(xs)[k := Versions(xs)[k].(live := true)]
  {
  }

  lemma {:induction false} DeliverySupersedes(xs: seq<ExecRow>, e: Execution, order: Option<string>)
    requires Find(xs, e.execId) == |xs|
    ensures var vs, ws := Versions(xs), Versions(UpsertRows(xs, e, order));
      && |ws| == |vs| + 1 && ws[|vs|] == Version(e.execId, RootId(e.execId), true)
      && forall i | 0 <= i < |vs| :: ws[i] == if vs[i].root == RootId(e.execId) then vs[i].(live := false) else vs[i]
  {
    var ys := UpsertRows(xs, e, order);
    var old' := Superseded(xs, e);
    assert ys == old' + [ExecRow(e, RootId(e.execId), HasPrior(xs, e), false, order)];
    forall i | 0 <= i < |xs|
      ensures ys[i].superseded == (xs[i].superseded || xs[i].root == RootId(e.execId))
      ensures ys[i].root == xs[i].root && ys[i].execution == xs[i].execution
    {
      assert ys[i] == old'[i];
    }
  }

  /** Redelivering a version that was already superseded is exactly what breaks uniqueness. */
  lemma {:induction false} UniquenessPreservedIff(xs: seq<ExecRow>, e: Execution, order: Option<string>)
    requires OneLivePerRoot(xs) && RootsRight(xs)
    ensures var k := Find(xs, e.execId);
      OneLivePerRoot(UpsertRows(xs, e, order)) <==> !(k < |xs| && xs[k].superseded)
  {
    var k, vs, ws := Find(xs, e.execId), Versions(xs), Versions(UpsertRows(xs, e, order));
    if k < |xs| {
      RepeatRevives(xs, e, order);
      RevivalBreaksIff(vs, k);
    } else {
      DeliverySupersedes(xs, e, order);
      NewVersionWins(vs, ws, Version(e.execId, RootId(e.execId), true));
    }
  }

  lemma {:induction false} RootsStayRight(xs: seq<ExecRow>, e: Execution, order: Option<string>)
    requires RootsRight(xs)
    ensures RootsRight(UpsertRows(xs, e, order))
  {
  }

  ghost predicate RootsRight(xs: seq<ExecRow>) {
    forall i | 0 <= i < |xs| :: xs[i].root == RootId(xs[i].execution.execId)
  }

  // ------------------------------------------------------------------- aggregation

  /** The order row says exactly what its live executions add up to. */
  ghost predicate Aggregated(r: Row, id: string, xs: seq<ExecRow>) {
    Sums(r, LiveQuantity(xs, id), LiveValue(xs, id))
  }

  ghost predicate Sums(r: Row, quantity: real, value: real) {
    var q, p := r.columns.quantity, r.progress;
    && q > 0.0
    && p.filled == Min(q, quantity)
    && p.filled + p.remaining == q
    && (quantity > 0.0 ==> p.avgFillPrice == value / quantity)
    && (p.filled == q ==> r.state == Filled)
    && (0.0 < p.filled < q ==> r.state == PartialFill || Terminal(r.state))
  }

  lemma {:induction false} FillSums(r: Row, corrects: bool, was: real, wasValue: real, quantity: real, value: real)
    requires Sums(r, was, wasValue) && (corrects || quantity >= was)
    ensures Sums(ApplyFill(r, corrects, quantity, value), quantity, value)
  {
  }

  /** A first delivery, or a repeat of a version that is still live. */
  predicate Regular(xs: seq<ExecRow>, e: Execution, id: string) {
    && e.quantity >= 0.0
    && var k := Find(xs, e.execId);
       k < |xs| ==> xs[k].execution == e && !xs[k].superseded && xs[k].order == Some(id)
  }

  lemma {:induction false} LiveSumsAgree(xs: seq<ExecRow>, ys: seq<ExecRow>, id: string)
    requires |xs| == |ys|
    requires forall i | 0 <= i < |xs| :: xs[i].execution == ys[i].execution && Counts(xs[i], id) == Counts(ys[i], id)
    ensures LiveQuantity(xs, id) == LiveQuantity(ys, id) && LiveValue(xs, id) == LiveValue(ys, id)
  {
    if xs != [] { LiveSumsAgree(xs[..|xs| - 1], ys[..|ys| - 1], id); }
  }

  lemma {:induction false} LiveSumsGrow(xs: seq<ExecRow>, e: Execution, id: string)
    requires Regular(xs, e, id)
    ensures var ys := UpsertRows(xs, e, Some(id));
      && (Find(xs, e.execId) < |xs| ==>
            LiveQuantity(ys, id) == LiveQuantity(xs, id) && LiveValue(ys, id) == LiveValue(xs, id))
      && (Find(xs, e.execId) == |xs| && !HasPrior(xs, e) ==> LiveQuantity(ys, id) >= LiveQuantity(xs, id))
  {
    var ys := UpsertRows(xs, e, Some(id));
    if Find(xs, e.execId) < |xs| {
      LiveSumsAgree(xs, ys, id);
    } else if !HasPrior(xs, e) {
      assert ys[..|xs|] == Superseded(xs, e);
      LiveSumsAgree(xs, ys[..|xs|], id);
    }
  }

  /** Everything the stream theorem keeps about order `id`. */
  ghost predicate Exact(t: Table, xs: seq<ExecRow>, id: string) {
    id in t && OneLivePerRoot(xs) && RootsRight(xs) && Aggregated(t[id], id, xs)
  }

  lemma {:induction false} DeliverySums(t: Table, xs: seq<ExecRow>, e: Execution, id: string)
    requires id in t && Aggregated(t[id], id, xs) && Regular(xs, e, id)
    ensures Aggregated(UpsertOrder(t, xs, e, Some(id))[id], id, UpsertRows(xs, e, Some(id)))
  {
    LiveSumsGrow(xs, e, id);
    if Find(xs, e.execId) == |xs| {
      var ys := UpsertRows(xs, e, Some(id));
      FillSums(t[id], HasPrior(xs, e), LiveQuantity(xs, id), LiveValue(xs, id),
               LiveQuantity(ys, id), LiveValue(ys, id));
    }
  }

  lemma {:induction false} DeliveryAggregates(t: Table, xs: seq<ExecRow>, e: Execution, id: string)
    requires Exact(t, xs, id) && Regular(xs, e, id) && MatchOrder(t, KeyOf(e)) == Some(id)
    ensures Exact(Upsert(t, xs, e).0, Upsert(t, xs, e).1, id)
  {
    assert OneLivePerRoot(UpsertRows(xs, e, Some(id))) by { UniquenessPreservedIff(xs, e, Some(id)); }
    RootsStayRight(xs, e, Some(id));
    DeliverySums(t, xs, e, id);
  }

  /** A delivery never changes who an order is. */
  lemma {:induction false} DeliveryKeepsIdentities(t: Table, xs: seq<ExecRow>, e: Execution)
    ensures SameIdentities(t, Upsert(t, xs, e).0)
  {
  }

  function Deliver(t: Table, xs: seq<ExecRow>, es: seq<Execution>): (Table, seq<ExecRow>)
    decreases |es|
  {
    if es == [] then (t, xs)
    else
      var (t', ys) := Upsert(t, xs, es[0]);
      Deliver(t', ys, es[1..])
  }

  ghost predicate RegularStream(xs: seq<ExecRow>, es: seq<Execution>, id: string)
    decreases |es|
  {
    es == [] || (Regular(xs, es[0], id) && RegularStream(UpsertRows(xs, es[0], Some(id)), es[1..], id))
  }

  /** Any stream of first deliveries, corrections and live repeats keeps the order exact. */
  lemma {:induction false} StreamAggregates(t: Table, xs: seq<ExecRow>, es: seq<Execution>, id: string)
    requires Exact(t, xs, id) && RegularStream(xs, es, id)
    requires forall i | 0 <= i < |es| :: MatchOrder(t, KeyOf(es[i])) == Some(id)
    ensures Exact(Deliver(t, xs, es).0, Deliver(t, xs, es).1, id)
    decreases |es|
  {
    if es != [] {
      var (t', ys) := Upsert(t, xs, es[0]);
      DeliveryAggregates(t, xs, es[0], id);
      DeliveryKeepsIdentities(t, xs, es[0]);
      forall i | 0 <= i < |es| - 1 ensures MatchOrder(t', KeyOf(es[1..][i])) == Some(id) {
        MatchDependsOnIdentity(t, t', KeyOf(es[i + 1]));
      }
      StreamAggregates(t', ys, es[1..], id);
    }
  }
}
