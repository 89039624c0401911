/**
 Reconciliation: rebuild the ledger from a broker snapshot and decide whether trading
 may resume.  `Reconciler.Run` is the procedure; `Clean` is the condition under which it
 reports READY, and the lemmas say what that condition means for the ledger it leaves.
 */
module Reconciliation {
  import opened Wrappers
  import opened Orders
  import opened OrderTable
  import opened Executions
  import opened Positions
  import opened Ledger

  datatype Snapshot = Snapshot(
    open: seq<Status>, completed: seq<Status>, executions: seq<Execution>, positions: seq<Position>)

  datatype Issue =
    | SnapshotFailed
    | UnmanagedOpenOrder(orderId: int)
    | RequestMismatch(id: string)
    | StateConflict(id: string)
    | UnmanagedExecution(execId: string)
    | MissingAtBroker(id: string)
    | PositionMismatch(key: PositionKey)
    | BaselineRequired

  datatype Session = Reconciling | Ready | Degraded

  // -------------------------------------------------------------- latest statuses

  datatype StatusKey = StatusKey(account: Option<string>, clientId: Option<int>, orderId: int)

  function KeyOfStatus(st: Status): StatusKey { StatusKey(st.account, st.clientId, st.orderId) }

  /** Position of the entry with the key of `st`, or the length. */
  function Slot(ss: seq<Status>, st: Status): (k: nat)
    ensures k <= |ss|
    ensures k < |ss| ==> KeyOfStatus(ss[k]) == KeyOfStatus(st)
    ensures forall i | 0 <= i < k :: KeyOfStatus(ss[i]) != KeyOfStatus(st)
  {
    if ss == [] || KeyOfStatus(ss[0]) == KeyOfStatus(st) then 0 else 1 + Slot(ss[1..], st)
  }

  /** A dictionary keyed by account, client and order id, newest status per key. */
  function Latest(ss: seq<Status>): seq<Status> {
    if ss == [] then []
    else
      var latest, st := Latest(ss[..|ss| - 1]), ss[|ss| - 1];
      var k := Slot(latest, st);
      if k == |latest| then latest + [st]
      else if st.updatedAt >= latest[k].updatedAt then latest[k := st]
      else latest
  }

  ghost predicate Newest(ss: seq<Status>, latest: seq<Status>) {
    && (forall i, j | 0 <= i < j < |latest| :: KeyOfStatus(latest[i]) != KeyOfStatus(latest[j]))
    && (forall i | 0 <= i < |latest| :: latest[i] in ss)
    && (forall i {:trigger Superseding(latest, ss[i])} | 0 <= i < |ss| :: Superseding(latest, ss[i]))
  }

  ghost predicate Superseding(latest: seq<Status>, st: Status) {
    exists k :: 0 <= k < |latest| && KeyOfStatus(latest[k]) == KeyOfStatus(st) && latest[k].updatedAt >= st.updatedAt
  }

  /** One status per key survives, and none that arrived is newer than the survivor. */
  lemma {:induction false} LatestIsNewest(ss: seq<Status>)
    ensures Newest(ss, Latest(ss))
  {
    if ss != [] {
      var front, st := ss[..|ss| - 1], ss[|ss| - 1];
      LatestIsNewest(front);
      var latest, latest' := Latest(front), Latest(ss);
      var k := Slot(latest, st);
      forall i | 0 <= i < |ss| ensures Superseding(latest', ss[i]) {
        if i < |front| {
          assert front[i] == ss[i] && Superseding(latest, ss[i]);
          var j :| 0 <= j < |latest| && KeyOfStatus(latest[j]) == KeyOfStatus(ss[i]) && latest[j].updatedAt >= ss[i].updatedAt;
          assert KeyOfStatus(latest'[j]) == KeyOfStatus(ss[i]) && latest'[j].updatedAt >= ss[i].updatedAt;
        } else if k < |latest| {
          assert KeyOfStatus(latest'[k]) == KeyOfStatus(st) && latest'[k].updatedAt >= st.updatedAt;
        } else {
          assert latest'[|latest|] == st;
        }
      }
    }
  }

  method LatestStatuses(ss: seq<Status>) returns (latest: seq<Status>)
    ensures latest == Latest(ss)
  {
    latest := [];
    for i := 0 to |ss|
      invariant latest == Latest(ss[..i])
    {
      assert ss[..i + 1][..i] == ss[..i];
      var k := Slot(latest, ss[i]);
      if k == |latest| {
        latest := latest + [ss[i]];
      } else if ss[i].updatedAt >= latest[k].updatedAt {
        latest := latest[k := ss[i]];
      }
    }
    assert ss[..|ss|] == ss;
  }

  // ---------------------------------------------------------------- order statuses

  function Locate(t: Table, account: string, st: Status): Option<string> {
    MatchOrder(t, BrokerKey(Some(account), Some(st.orderId), st.clientId, st.permanentId, st.orderRef))
  }

  ghost predicate AllPaired(t: Table) { forall id <- t :: PendingPaired(t[id]) }

  /** One surviving status, applied to the order it identifies. */
  ghost function SettleOne(t: Table, account: string, st: Status): (t': Table)
    requires AllPaired(t)
    ensures AllPaired(t') && t'.Keys == t.Keys && (Keyed(t) ==> Keyed(t'))
  {
    if st.account != Some(account) then t
    else match Locate(t, account, st)
      case None => t
      case Some(id) => t[id := ApplyStatus(t[id], LifecycleFromStatus(st), st, true)]
  }

  /** The status agrees with the row it identifies. */
  predicate Agrees(r: Row, st: Status) {
    && (Echoes(st, r.request) || (r.pendingRequest.Some? && Echoes(st, r.pendingRequest.value)))
    && (Terminal(r.state) ==> r.state == LifecycleFromStatus(st))
  }

  predicate StatusFine(t: Table, account: string, st: Status, open: seq<Status>, strict: bool) {
    st.account == Some(account) ==>
      match Locate(t, account, st)
      case None => strict ==> st !in open
      case Some(id) => Agrees(t[id], st)
  }

  /** A pass over the statuses: the orders it leaves, the orders it saw, and whether all agreed. */
  datatype Passed = Passed(orders: Table, matched: set<string>, fine: bool)

  ghost function MatchOf(t: Table, account: string, st: Status): set<string> {
    if st.account == Some(account) && Locate(t, account, st).Some? then {Locate(t, account, st).value} else {}
  }

  /** Each status meets the ledger its predecessors left. */
  ghost function StatusPass(t: Table, account: string, ss: seq<Status>, open: seq<Status>, strict: bool): (p: Passed)
    requires AllPaired(t)
    ensures AllPaired(p.orders) && p.orders.Keys == t.Keys && (Keyed(t) ==> Keyed(p.orders))
    decreases |ss|
  {
    if ss == [] then Passed(t, {}, true)
    else
      var rest := StatusPass(SettleOne(t, account, ss[0]), account, ss[1..], open, strict);
      Passed(rest.orders, MatchOf(t, account, ss[0]) + rest.matched, StatusFine(t, account, ss[0], open, strict) && rest.fine)
  }

  /** What was gathered so far together with a pass over the rest makes up the whole pass. */
  ghost predicate Completes(whole: Passed, rest: Passed, matched: set<string>, fine: bool) {
    && whole.orders == rest.orders
    && whole.matched == matched + rest.matched
    && (whole.fine <==> fine && rest.fine)
  }

  lemma {:induction false} AdvancePass(
    whole: Passed, t: Table, account: string, ss: seq<Status>, open: seq<Status>, strict: bool,
    matched: set<string>, fine: bool)
    requires AllPaired(t) && ss != []
    requires Completes(whole, StatusPass(t, account, ss, open, strict), matched, fine)
    ensures Completes(whole, StatusPass(SettleOne(t, account, ss[0]), account, ss[1..], open, strict),
                      matched + MatchOf(t, account, ss[0]), fine && StatusFine(t, account, ss[0], open, strict))
  {
  }

  // ------------------------------------------------- executions, orphans, positions

  ghost predicate AllLinked(t: Table, xs: seq<ExecRow>, es: seq<Execution>)
    decreases |es|
  {
    es == [] || (LinkOf(t, xs, es[0]).Some?
                 && var (t', xs') := Upsert(t, xs, es[0]); AllLinked(t', xs', es[1..]))
  }

  predicate SubmittedAndOpen(r: Row, account: string) {
    r.id.account == account && !Terminal(r.state) && !Fresh(r.state)
  }

  /** A submitted order that is still open locally but that no snapshot mentioned. */
  predicate Orphan(r: Row, account: string, matched: set<string>) {
    SubmittedAndOpen(r, account) && r.id.clientOrderId !in matched
  }

  ghost predicate NoOrphans(t: Table, account: string, matched: set<string>) {
    forall id <- t :: !Orphan(t[id], account, matched)
  }

  predicate ManagedBetween(x: ExecRow, account: string, from: int, until: int) {
    x.execution.account == account && from <= x.execution.executedAt < until && !x.superseded && x.order.Some?
  }

  function Managed(xs: seq<ExecRow>, account: string, from: int, until: int): seq<ExecRow> {
    if xs == [] then []
    else
      var x := xs[|xs| - 1];
      Managed(xs[..|xs| - 1], account, from, until) + (if ManagedBetween(x, account, from, until) then [x] else [])
  }

  /** The adopted baseline of one account. */
  datatype Baseline = Baseline(book: Book, capturedAt: int, lastReady: Option<int>)

  predicate Adopted(b: Baseline) { b.book != map[] || b.lastReady.Some? }

  function Watermark(b: Baseline): int
    requires Adopted(b)
  {
    if b.book != map[] then b.capturedAt else b.lastReady.value
  }

  ghost predicate PositionsFine(
    b: Baseline, xs: seq<ExecRow>, account: string, ps: seq<Position>, until: int, adoption: bool)
  {
    if Adopted(b) then forall k :: Explained(b.book, Managed(xs, account, Watermark(b), until), ps, k)
    else ps == [] || !adoption
  }

  function Own(ps: seq<Position>, account: string): seq<Position> {
    if ps == [] then []
    else
      var p := ps[|ps| - 1];
      Own(ps[..|ps| - 1], account) + (if p.account == account then [p] else [])
  }

  predicate DistinctPositions(ps: seq<Position>) {
    forall i, j | 0 <= i < j < |ps| :: PositionKeyOf(ps[i]) != PositionKeyOf(ps[j])
  }

  // ------------------------------------------------------------------ the procedure

  class Reconciler {
    const ledger: OrderLedger
    const account: string
    const allowUnmanaged: bool
    const requireAdoption: bool
    var baseline: Baseline
    var session: Session

    constructor (ledger: OrderLedger, account: string, allowUnmanaged: bool, requireAdoption: bool)
      ensures this.ledger == ledger && this.account == account
      ensures this.allowUnmanaged == allowUnmanaged && this.requireAdoption == requireAdoption
      ensures baseline == Baseline(map[], 0, None) && session == Degraded
    {
      this.ledger, this.account := ledger, account;
      this.allowUnmanaged, this.requireAdoption := allowUnmanaged, requireAdoption;
      baseline, session := Baseline(map[], 0, None), Degraded;
    }

    predicate Blocking(i: Issue) { i.UnmanagedOpenOrder? ==> !allowUnmanaged }

    predicate Ok(issues: seq<Issue>) { forall i <- issues :: !Blocking(i) }

    method ReconcileStatuses(
      statuses: seq<Status>, open: seq<Status>) returns (issues: seq<Issue>, matched: set<string>)
      requires ledger.Valid()
      modifies ledger`orders
      ensures ledger.Valid() && AllPaired(old(ledger.orders))
      ensures Passed(ledger.orders, matched, Ok(issues))
        == StatusPass(old(ledger.orders), account, statuses, open, !allowUnmanaged)
    {
      issues, matched := [], {};
      var rest := statuses;
      ghost var whole := StatusPass(ledger.orders, account, statuses, open, !allowUnmanaged);
      while rest != []
        invariant ledger.Valid() && AllPaired(ledger.orders)
        invariant Completes(whole, StatusPass(ledger.orders, account, rest, open, !allowUnmanaged), matched, Ok(issues))
        decreases |rest|
      {
        ghost var before, seen, fine := ledger.orders, matched, Ok(issues);
        var found, local := ReconcileStatus(rest[0], open);
        AdvancePass(whole, before, account, rest, open, !allowUnmanaged, seen, fine);
        issues, matched, rest := issues + found, matched + local, rest[1..];
      }
    }

    /** One status: look for disagreement first, then apply it. */
    method ReconcileStatus(st: Status, open: seq<Status>) returns (issues: seq<Issue>, matched: set<string>)
      requires ledger.Valid()
      modifies ledger`orders
      ensures ledger.Valid() && AllPaired(old(ledger.orders))
      ensures ledger.orders == SettleOne(old(ledger.orders), account, st)
      ensures matched == MatchOf(old(ledger.orders), account, st)
      ensures Ok(issues) <==> StatusFine(old(ledger.orders), account, st, open, !allowUnmanaged)
    {
      issues, matched := [], {};
      if st.account != Some(account) { return; }
      var located := Locate(ledger.orders, account, st);
      if located.None? {
        if st in open {
          issues := [UnmanagedOpenOrder(st.orderId)];
          assert Blocking(issues[0]) <==> !allowUnmanaged;
        }
        return;
      }
      var id := located.value;
      matched := {id};
      var row := ledger.orders[id];
      if !Echoes(st, row.request) && !(row.pendingRequest.Some? && Echoes(st, row.pendingRequest.value)) {
        issues := issues + [RequestMismatch(id)];
        assert Blocking(issues[0]);
      }
      var target := LifecycleFromStatus(st);
      if Terminal(row.state) && row.state != target {
        issues := issues + [StateConflict(id)];
        assert Blocking(issues[|issues| - 1]);
      }
      var _ := ledger.ApplyReconciledStatus(id, target, st, true);
    }

    method ReconcileExecutions(es: seq<Execution>) returns (issues: seq<Issue>)
      requires ledger.Valid()
      modifies ledger
      ensures ledger.Valid()
      ensures (ledger.orders, ledger.executions) == Deliver(old(ledger.orders), old(ledger.executions), es)
      ensures Ok(issues) <==> AllLinked(old(ledger.orders), old(ledger.executions), es)
    {
      issues := [];
      for i := 0 to |es|
        invariant ledger.Valid()
        invariant Deliver(ledger.orders, ledger.executions, es[i..])
                    == Deliver(old(ledger.orders), old(ledger.executions), es)
        invariant Ok(issues) && AllLinked(ledger.orders, ledger.executions, es[i..])
          <==> AllLinked(old(ledger.orders), old(ledger.executions), es)
      {
        assert es[i..][0] == es[i] && es[i..][1..] == es[i + 1..];
        var linked := ledger.UpsertExecution(es[i]);
        if linked.None? {
          issues := issues + [UnmanagedExecution(es[i].execId)];
          assert Blocking(issues[|issues| - 1]);
        }
      }
    }

    method FindOrphans(matched: set<string>) returns (issues: seq<Issue>)
      requires ledger.Valid()
      ensures Ok(issues) <==> NoOrphans(ledger.orders, account, matched)
    {
      issues := [];
      var todo := ledger.orders.Keys;
      while todo != {}
        invariant todo <= ledger.orders.Keys
        invariant Ok(issues) <==> forall id <- ledger.orders :: id in todo || !Orphan(ledger.orders[id], account, matched)
        decreases todo
      {
        var id :| id in todo;
        todo := todo - {id};
        if Orphan(ledger.orders[id], account, matched) {
          issues := issues + [MissingAtBroker(id)];
          assert Blocking(issues[|issues| - 1]);
        }
      }
    }

    method CheckPositions(ps: seq<Position>, until: int) returns (issues: seq<Issue>)
      ensures Ok(issues) <==> issues == []
      ensures issues == [] <==> PositionsFine(baseline, ledger.executions, account, ps, until, requireAdoption)
    {
      issues := [];
      if Adopted(baseline) {
        var managed := Managed(ledger.executions, account, Watermark(baseline), until);
        var differing := PositionDifferences(baseline.book, ps, managed);
        while differing != {}
          invariant Ok(issues) <==> issues == []
          invariant issues == [] && differing == {}
            <==> PositionsFine(baseline, ledger.executions, account, ps, until, requireAdoption)
          decreases differing
        {
          var k :| k in differing;
          differing := differing - {k};
          issues := issues + [PositionMismatch(k)];
          assert Blocking(issues[|issues| - 1]);
        }
      } else if ps != [] && requireAdoption {
        issues := [BaselineRequired];
        assert Blocking(issues[0]);
      }
    }

    /** Replaces the stored positions; two of one key break the primary key and the transaction rolls back. */
    method ReplacePositions(ps: seq<Position>, at: int) returns (raised: bool)
      modifies this`baseline
      ensures raised <==> !DistinctPositions(Own(ps, account))
      ensures baseline == if raised then old(baseline)
                          else old(baseline).(book := BookOf(Own(ps, account)), capturedAt := at)
    {
      var own, keys := Own(ps, account), {};
      for i := 0 to |own|
        invariant forall k :: k in keys <==> exists j :: 0 <= j < i && PositionKeyOf(own[j]) == k
        invariant DistinctPositions(own[..i])
      {
        var key := PositionKeyOf(own[i]);
        if key in keys { return true; }
        keys := keys + {key};
      }
      assert own[..|own|] == own;
      baseline := baseline.(book := BookOf(own), capturedAt := at);
      return false;
    }

    /** When storing the positions raises, the run ends there and the session stays in reconciliation. */
    method Run(answer: Option<Snapshot>, positionsAt: int, replacedAt: int, completedAt: int)
      returns (issues: seq<Issue>, raised: bool)
      requires ledger.Valid()
      modifies this, ledger
      ensures ledger.Valid() && AllPaired(old(ledger.orders))
      ensures session == (if raised then Reconciling else if Ok(issues) then Ready else Degraded)
      ensures answer.None? ==>
        && session == Degraded && baseline == old(baseline)
        && ledger.orders == old(ledger.orders) && ledger.executions == old(ledger.executions)
      ensures answer.Some? ==>
        && (ledger.orders, ledger.executions)
             == Rebuilt(old(ledger.orders), old(ledger.executions), account, answer.value, !allowUnmanaged)
        && (session == Ready <==>
              Clean(old(ledger.orders), old(ledger.executions), old(baseline), account, answer.value,
                    positionsAt, !allowUnmanaged, requireAdoption)
              && DistinctPositions(Own(answer.value.positions, account)))
        && var fine := PositionsFine(old(baseline), ledger.executions, account, answer.value.positions, positionsAt,
                                     requireAdoption);
           (raised <==> fine && !DistinctPositions(Own(answer.value.positions, account)))
           && (baseline.book, baseline.capturedAt)
             == if fine && !raised then (BookOf(Own(answer.value.positions, account)), replacedAt)
                else (old(baseline).book, old(baseline).capturedAt)
    {
      session, raised := Reconciling, false;
      if answer.None? {
        issues := [SnapshotFailed];
        assert Blocking(issues[0]);
        session := Degraded;
        return;
      }
      var broker := answer.value;
      var latest := LatestStatuses(broker.open + broker.completed);
      var fromStatuses, matched := ReconcileStatuses(latest, broker.open);
      var fromExecutions := ReconcileExecutions(broker.executions);
      var orphans := FindOrphans(matched);
      var positionIssues := CheckPositions(broker.positions, positionsAt);
      issues := fromStatuses + fromExecutions + orphans + positionIssues;
      if positionIssues == [] {
        raised := ReplacePositions(broker.positions, replacedAt);
        if raised { return; }
      }
      if Ok(issues) {
        baseline := baseline.(lastReady := Some(Later(baseline.lastReady, completedAt)));
        session := Ready;
      } else {
        session := Degraded;
      }
    }
  }

  function Later(was: Option<int>, at: int): int {
    if was.Some? && was.value > at then was.value else at
  }

  ghost function LatestPass(t: Table, account: string, broker: Snapshot, strict: bool): Passed
    requires AllPaired(t)
  {
    StatusPass(t, account, Latest(broker.open + broker.completed), broker.open, strict)
  }

  /** The ledger after a reconciliation that obtained a snapshot. */
  ghost function Rebuilt(t: Table, xs: seq<ExecRow>, account: string, broker: Snapshot, strict: bool)
    : (Table, seq<ExecRow>)
    requires AllPaired(t)
  {
    Deliver(LatestPass(t, account, broker, strict).orders, xs, broker.executions)
  }

  /** The exact condition for READY. */
  ghost predicate Clean(
    t: Table, xs: seq<ExecRow>, b: Baseline, account: string, broker: Snapshot, until: int, strict: bool, adoption: bool)
    requires AllPaired(t)
  {
    var pass := LatestPass(t, account, broker, strict);
    var (t', xs') := Deliver(pass.orders, xs, broker.executions);
    && pass.fine
    && AllLinked(pass.orders, xs, broker.executions)
    && NoOrphans(t', account, pass.matched)
    && PositionsFine(b, xs', account, broker.positions, until, adoption)
  }

  // ----------------------------------------------------------- what READY means

  /** The orders once the statuses `ss` have been applied. */
  ghost function Seen(t: Table, account: string, ss: seq<Status>): (t': Table)
    requires AllPaired(t)
    ensures AllPaired(t')
    decreases |ss|
  {
    if ss == [] then t else Seen(SettleOne(t, account, ss[0]), account, ss[1..])
  }

  /** Status `k` met orders with which it agreed. */
  ghost predicate FineAt(t: Table, account: string, ss: seq<Status>, k: nat, open: seq<Status>, strict: bool)
    requires AllPaired(t) && k < |ss|
  {
    StatusFine(Seen(t, account, ss[..k]), account, ss[k], open, strict)
  }

  /** Status `k` identified order `id`. */
  ghost predicate NamedAt(t: Table, account: string, ss: seq<Status>, k: nat, id: string)
    requires AllPaired(t) && k < |ss|
  {
    ss[k].account == Some(account) && Locate(Seen(t, account, ss[..k]), account, ss[k]) == Some(id)
  }

  lemma {:induction false} SeenNext(t: Table, account: string, ss: seq<Status>, k: nat)
    requires AllPaired(t) && 0 < k <= |ss|
    ensures Seen(t, account, ss[..k]) == Seen(SettleOne(t, account, ss[0]), account, ss[1..][..k - 1])
  {
    assert ss[..k][1..] == ss[1..][..k - 1];
  }

  lemma {:induction false} SeenSnoc(t: Table, account: string, ss: seq<Status>, k: nat)
    requires AllPaired(t) && k < |ss|
    ensures Seen(t, account, ss[..k + 1]) == SettleOne(Seen(t, account, ss[..k]), account, ss[k])
    decreases k
  {
    SeenNext(t, account, ss, k + 1);
    if k > 0 {
      SeenNext(t, account, ss, k);
      SeenSnoc(SettleOne(t, account, ss[0]), account, ss[1..], k - 1);
    }
  }

  lemma {:induction false} FineEverywhere(t: Table, account: string, ss: seq<Status>, open: seq<Status>, strict: bool)
    requires AllPaired(t) && StatusPass(t, account, ss, open, strict).fine
    ensures forall k | 0 <= k < |ss| :: FineAt(t, account, ss, k, open, strict)
    decreases |ss|
  {
    if ss != [] {
      var t' := SettleOne(t, account, ss[0]);
      FineEverywhere(t', account, ss[1..], open, strict);
      forall k | 0 <= k < |ss| ensures FineAt(t, account, ss, k, open, strict) {
        if k > 0 {
          SeenNext(t, account, ss, k);
          assert FineAt(t', account, ss[1..], k - 1, open, strict);
        }
      }
    }
  }

  lemma {:induction false} MatchedWasNamed(
    t: Table, account: string, ss: seq<Status>, open: seq<Status>, strict: bool, id: string) returns (k: nat)
    requires AllPaired(t) && id in StatusPass(t, account, ss, open, strict).matched
    ensures k < |ss| && NamedAt(t, account, ss, k, id)
    decreases |ss|
  {
    if id in MatchOf(t, account, ss[0]) {
      k := 0;
    } else {
      var m := MatchedWasNamed(SettleOne(t, account, ss[0]), account, ss[1..], open, strict, id);
      k := m + 1;
      SeenNext(t, account, ss, k);
    }
  }

  /** A row after an agreeing status: its confirmed terms are the reported ones and nothing is pending. */
  predicate InStep(r: Row, st: Status) {
    && r.pendingRequest.None? && Echoes(st, r.request)
    && r.progress == Progress(st.filled, st.remaining, st.avgFillPrice)
    && r.links.orderId == Some(st.orderId)
    && (Terminal(r.state) ==> r.state == LifecycleFromStatus(st))
  }

  lemma {:induction false} AgreementSettles(r: Row, st: Status)
    requires PendingPaired(r) && Agrees(r, st)
    ensures InStep(ApplyStatus(r, LifecycleFromStatus(st), st, true), st)
  {
  }

  /** The execution is on record and tied to an order. */
  ghost predicate Recorded(xs: seq<ExecRow>, e: Execution) {
    exists k :: 0 <= k < |xs| && xs[k].execution.execId == e.execId && xs[k].order.Some?
  }

  lemma {:induction false} DeliveryKeepsRecords(t: Table, xs: seq<ExecRow>, es: seq<Execution>, e: Execution)
    requires Recorded(xs, e)
    ensures Recorded(Deliver(t, xs, es).1, e)
    decreases |es|
  {
    if es != [] {
      var (t', ys) := Upsert(t, xs, es[0]);
      var k :| 0 <= k < |xs| && xs[k].execution.execId == e.execId && xs[k].order.Some?;
      assert ys[k].execution.execId == e.execId && ys[k].order.Some?;
      DeliveryKeepsRecords(t', ys, es[1..], e);
    }
  }

  lemma {:induction false} LinkedAreRecorded(t: Table, xs: seq<ExecRow>, es: seq<Execution>, i: nat)
    requires AllLinked(t, xs, es) && i < |es|
    ensures Recorded(Deliver(t, xs, es).1, es[i])
    decreases |es|
  {
    var (t', ys) := Upsert(t, xs, es[0]);
    if i == 0 {
      var k := Find(xs, es[0].execId);
      assert ys[k].execution.execId == es[0].execId && ys[k].order.Some?;
      DeliveryKeepsRecords(t', ys, es[1..], es[0]);
    } else {
      LinkedAreRecorded(t', ys, es[1..], i - 1);
    }
  }

  /** Survivor `k` of this account: it names exactly one order and leaves it in step. */
  ghost predicate Accounted(t: Table, account: string, ss: seq<Status>, k: nat)
    requires AllPaired(t) && k < |ss|
  {
    exists id :: NamedAt(t, account, ss, k, id)
      && id in Seen(t, account, ss[..k + 1]) && InStep(Seen(t, account, ss[..k + 1])[id], ss[k])
  }

  ghost predicate NamedSomewhere(t: Table, account: string, ss: seq<Status>, id: string)
    requires AllPaired(t)
  {
    exists k :: 0 <= k < |ss| && NamedAt(t, account, ss, k, id)
  }

  lemma {:induction false} NamedIsAccounted(
    t: Table, account: string, ss: seq<Status>, k: nat, open: seq<Status>, strict: bool)
    requires AllPaired(t) && k < |ss| && ss[k].account == Some(account)
    requires FineAt(t, account, ss, k, open, strict)
    requires Locate(Seen(t, account, ss[..k]), account, ss[k]).Some? || (strict && ss[k] in open)
    ensures Accounted(t, account, ss, k)
  {
    var met := Seen(t, account, ss[..k]);
    var id := Locate(met, account, ss[k]).value;
    SeenSnoc(t, account, ss, k);
    AgreementSettles(met[id], ss[k]);
    assert NamedAt(t, account, ss, k, id);
  }

  /**
   READY, with unmanaged orders disallowed: every surviving open status of the account names
   one order and agrees with it, as does every other survivor that names one; every execution
   of the snapshot is tied to an order; no submitted open order went unmentioned; and for every
   key the broker holds the baseline plus the managed executions.
   */
  lemma {:induction false} ReadyIsSound(
    t: Table, xs: seq<ExecRow>, b: Baseline, account: string, broker: Snapshot, until: int, adoption: bool)
    requires AllPaired(t) && Clean(t, xs, b, account, broker, until, true, adoption)
    ensures var ss := Latest(broker.open + broker.completed); var (t', xs') := Rebuilt(t, xs, account, broker, true);
      && Newest(broker.open + broker.completed, ss)
      && (forall k | 0 <= k < |ss| && ss[k].account == Some(account) && ss[k] in broker.open ::
            Accounted(t, account, ss, k))
      && (forall k, id | 0 <= k < |ss| && NamedAt(t, account, ss, k, id) :: Accounted(t, account, ss, k))
      && (forall e <- broker.executions :: Recorded(xs', e))
      && (forall id | id in t' && SubmittedAndOpen(t'[id], account) ::
            NamedSomewhere(t, account, ss, t'[id].id.clientOrderId))
      && (if Adopted(b)
          then forall key :: BrokerQuantity(broker.positions, key)
                               == Get(b.book, key) + NetEffect(Managed(xs', account, Watermark(b), until), key)
          else adoption ==> broker.positions == [])
  {
    var ss := Latest(broker.open + broker.completed);
    LatestIsNewest(broker.open + broker.completed);
    FineEverywhere(t, account, ss, broker.open, true);
    forall k | 0 <= k < |ss| && ss[k].account == Some(account)
               && (ss[k] in broker.open || Locate(Seen(t, account, ss[..k]), account, ss[k]).Some?)
      ensures Accounted(t, account, ss, k)
    {
      NamedIsAccounted(t, account, ss, k, broker.open, true);
    }
    var pass := LatestPass(t, account, broker, true);
    forall i | 0 <= i < |broker.executions| ensures Recorded(Rebuilt(t, xs, account, broker, true).1, broker.executions[i]) {
      LinkedAreRecorded(pass.orders, xs, broker.executions, i);
    }
    var t' := Rebuilt(t, xs, account, broker, true).0;
    forall id | id in t' && SubmittedAndOpen(t'[id], account)
      ensures NamedSomewhere(t, account, ss, t'[id].id.clientOrderId)
    {
      assert !Orphan(t'[id], account, pass.matched);
      var k := MatchedWasNamed(t, account, ss, broker.open, true, t'[id].id.clientOrderId);
    }
    if Adopted(b) {
      forall key
        ensures BrokerQuantity(broker.positions, key)
                  == Get(b.book, key) + NetEffect(Managed(Rebuilt(t, xs, account, broker, true).1, account, Watermark(b), until), key)
      {
        assert Explained(b.book, Managed(Rebuilt(t, xs, account, broker, true).1, account, Watermark(b), until),
                         broker.positions, key);
      }
    }
  }
}
