/**
 The order ledger as it is programmed: every method is one committed transaction that
 loads rows, changes them column by column and writes them back.  The contracts tie the
 new tables to the pure functions the run theorems are about.
 */
module Ledger {
  import opened Wrappers
  import opened Orders
  import opened OrderTable
  import opened Executions
  import opened OpenRisk
  import opened Sums

  class OrderLedger {
    var orders: Table
    var executions: seq<ExecRow>

    ghost predicate Valid()
      reads this
    {
      Keyed(orders) && forall id <- orders :: PendingPaired(orders[id])
    }

    constructor ()
      ensures Valid() && orders == map[] && executions == []
    {
      orders := map[];
      executions := [];
    }

    method CreateOrGetIntent(intent: Intent, expected: Option<int>) returns (r: Result<Created, LedgerError>)
      requires Valid()
      modifies this`orders
      ensures Valid()
      ensures (orders, r) == CreateOrGet(old(orders), intent, expected)
    {
      var key := intent.clientOrderId;
      if intent.request.account == "" { return Err(MissingAccount); }
      if key in orders {
        var existing := orders[key];
        if existing.id.intentHash != HashOf(intent) { return Err(IdempotencyConflict); }
        if expected.Some? && existing.links.clientId.Some? && existing.links.clientId != expected {
          return Err(ForeignClient);
        }
        if expected.Some? && existing.links.clientId.None?
           && Fresh(existing.state) {
          existing := existing.(links := existing.links.(clientId := expected));
        }
        orders := orders[key := existing];
        return Ok(Created(existing, true));
      }
      var row := NewRow(intent, expected);
      orders := orders[key := row];
      return Ok(Created(row, false));
    }

    method TransitionOrder(
      id: string, target: State, reported: Option<Status>, decision: Option<string>, reason: Option<Note>)
      returns (r: Result<Row, LedgerError>)
      requires Valid()
      modifies this`orders
      ensures Valid()
      ensures id !in old(orders) ==> r == Err(UnknownOrder) && orders == old(orders)
      ensures id in old(orders) ==>
        match Transition(old(orders)[id], target, reported, decision, reason)
        case Some(row) => r == Ok(row) && orders == old(orders)[id := row]
        case None => r == Err(InvalidTransition) && orders == old(orders)
    {
      if id !in orders { return Err(UnknownOrder); }
      var moved := TransitionRow(orders[id], target, reported, decision, reason);
      if moved.None? { return Err(InvalidTransition); }
      orders := orders[id := moved.value];
      return Ok(moved.value);
    }

    /** One UPDATE over the group; any miss rolls the whole statement back. */
    method ClaimSubmissionGroup(ids: seq<string>, attempt: string, now: int)
      returns (r: Result<bool, LedgerError>)
      requires Valid()
      modifies this`orders
      ensures Valid()
      ensures (orders, r) == ClaimGroup(old(orders), ids, attempt, now)
    {
      var distinct := Distinct(ids);
      if ids == [] || !distinct { return Err(InvalidGroup); }
      var work, count := orders, 0;
      for i := 0 to |ids|
        invariant orders == old(orders) && work == ClaimedPart(orders, ids[..i], attempt, now)
        invariant count <= i && (count == i <==> AllAuthorized(orders, ids[..i]))
      {
        var id := ids[i];
        OneMoreClaim(orders, ids, i, attempt, now);
        var claimed := None;
        if id in work { claimed := ClaimRow(work[id], attempt, now); }
        if claimed.Some? {
          work := work[id := claimed.value];
          count := count + 1;
        }
      }
      assert ids[..|ids|] == ids;
      if count != |ids| { return Ok(false); }
      WholeClaim(orders, ids, attempt, now);
      orders := work;
      return Ok(true);
    }

    method ClaimReplacementOf(
      id: string, expected: nat, q: Request, hash: OrderHash, riskId: string, attempt: string, now: int)
      returns (won: bool)
      requires Valid()
      modifies this`orders
      ensures Valid()
      ensures var claim := if id in old(orders)
                           then ClaimReplacement(old(orders)[id], expected, q, hash, riskId, attempt, now) else None;
        won == claim.Some? && orders == if won then old(orders)[id := claim.value] else old(orders)
    {
      if id !in orders { return false; }
      var row := orders[id];
      if row.revision != expected { return false; }
      if row.state != Acknowledged && row.state != PartialFill { return false; }
      if row.progress.filled > q.quantity { return false; }
      row := row.(state := ReplacePending);
      row := row.(pendingHash := Some(hash), pendingRequest := Some(q));
      row := row.(journal := Started(row.journal, attempt, now).(riskDecision := Some(riskId)));
      row := row.(revision := row.revision + 1);
      orders := orders[id := row];
      return true;
    }

    method ClaimCancellationOf(id: string, expected: nat, attempt: string, now: int) returns (won: bool)
      requires Valid()
      modifies this`orders
      ensures Valid()
      ensures var claim := if id in old(orders)
                           then ClaimCancellation(old(orders)[id], expected, attempt, now) else None;
        won == claim.Some? && orders == if won then old(orders)[id := claim.value] else old(orders)
    {
      if id !in orders { return false; }
      var row := orders[id];
      if row.revision != expected || !Cancellable(row.state) || row.links.orderId.None? { return false; }
      row := row.(state := CancelPending);
      row := row.(journal := Started(row.journal, attempt, now));
      row := row.(revision := row.revision + 1);
      orders := orders[id := row];
      return true;
    }

    method ApplyReconciledStatus(id: string, target: State, st: Status, settle: bool)
      returns (r: Result<Row, LedgerError>)
      requires Valid()
      modifies this`orders
      ensures Valid()
      ensures id !in old(orders) ==> r == Err(UnknownOrder) && orders == old(orders)
      ensures id in old(orders) ==>
        && r == Ok(ApplyStatus(old(orders)[id], target, st, settle))
        && orders == old(orders)[id := r.value]
    {
      if id !in orders { return Err(UnknownOrder); }
      var row := StatusRow(orders[id], target, st, settle);
      orders := orders[id := row];
      return Ok(row);
    }

    method MarkExpiredAfterCancel(id: string, at: int) returns (r: Result<Row, LedgerError>)
      requires Valid()
      modifies this`orders
      ensures Valid()
      ensures id !in old(orders) ==> r == Err(UnknownOrder) && orders == old(orders)
      ensures id in old(orders) ==>
        match MarkExpired(old(orders)[id], at)
        case Some(row) => r == Ok(row) && orders == old(orders)[id := row]
        case None => r == Err(InvalidTransition) && orders == old(orders)
    {
      if id !in orders { return Err(UnknownOrder); }
      var row := orders[id];
      if row.state != Cancelled { return Err(InvalidTransition); }
      row := row.(state := Expired, lastError := Some(TtlElapsed(at)));
      row := row.(revision := row.revision + 1);
      orders := orders[id := row];
      return Ok(row);
    }

    /** Records one execution version and re-sums the order it is linked to. */
    method UpsertExecution(e: Execution) returns (linked: Option<string>)
      requires Valid()
      modifies this
      ensures Valid()
      ensures (orders, executions) == Upsert(old(orders), old(executions), e)
      ensures linked == LinkOf(old(orders), old(executions), e)
    {
      var order := MatchOrder(orders, KeyOf(e));
      linked := LinkOf(orders, executions, e);
      var rows, isNew, corrects := RecordVersion(executions, e, order);
      executions := rows;
      if order.Some? && isNew {
        var id := order.value;
        var quantity, value := SumLive(rows, id);
        var row := FillRow(orders[id], corrects, quantity, value);
        assert PendingPaired(row) && row.id == orders[id].id;
        orders := orders[id := row];
      }
    }

    /** Exposure of every order that may still be alive; an error if one cannot be valued. */
    method OpenOrderRiskNotional(account: string) returns (r: Option<real>)
      ensures r.Some? <==> Reconstructible(orders, account)
      ensures r.Some? ==> r.value == OpenNotional(orders, account)
    {
      var todo, total := orders.Keys, 0.0;
      assert orders - todo == map[];
      while todo != {}
        invariant todo <= orders.Keys
        invariant total == OpenNotional(orders - todo, account)
        invariant forall id <- orders :: id in todo || Valued(orders[id], account)
        decreases todo
      {
        var id :| id in todo;
        OneMoreRow(orders, todo, id, account);
        todo := todo - {id};
        var risk := RiskOfRow(orders[id], account);
        if risk.None? { return None; }
        total := total + risk.value;
      }
      assert orders - todo == orders;
      return Some(total);
    }
  }

  // ------------------------------------- what a transaction does to the loaded row

  method TransitionRow(
    r: Row, target: State, reported: Option<Status>, decision: Option<string>, reason: Option<Note>)
    returns (moved: Option<Row>)
    ensures moved == Transition(r, target, reported, decision, reason)
  {
    var row := r;
    if row.state != target {
      if Terminal(row.state) { return None; }
      if target !in AllowedTargets(row.state) { return None; }
    }
    row := row.(state := target);
    row := row.(revision := row.revision + 1);
    if decision.Some? { row := row.(journal := row.journal.(riskDecision := decision)); }
    if reason.Some? { row := row.(lastError := reason); }
    if reported.Some? { row := WithStatus(row, reported.value); }
    return Some(row);
  }

  method ClaimRow(r: Row, attempt: string, now: int) returns (claimed: Option<Row>)
    ensures claimed == ClaimSubmission(r, attempt, now)
  {
    if r.state != Authorized { return None; }
    var row := r.(state := Submitting);
    row := row.(journal := Started(row.journal, attempt, now));
    row := row.(revision := row.revision + 1);
    return Some(row);
  }

  method RiskOfRow(r: Row, account: string) returns (risk: Option<real>)
    ensures risk.Some? <==> Valued(r, account)
    ensures risk.Some? ==> risk.value == RowRisk(r, account)
  {
    if !Counted(r, account) { return Some(0.0); }
    var unit := UnitRisk(r);
    if unit.None? { return None; }
    return Some(r.progress.remaining * unit.value);
  }

  /** Settles or keeps a pending replacement before the lifecycle state is touched. */
  method PendingRow(r: Row, st: Status, settle: bool) returns (row: Row, mismatch: bool)
    requires PendingPaired(r)
    ensures row == SettledRow(r, Settle(r, st, settle))
    ensures mismatch <==> Settle(r, st, settle) == Mismatch
  {
    row := r;
    mismatch := false;
    if row.pendingRequest.Some? {
      if Echoes(st, row.pendingRequest.value) {
        row := Promote(row);
      } else if settle {
        if Echoes(st, row.request) {
          row := row.(pendingHash := None, pendingRequest := None);
          row := row.(lastError := Some(PriorTermsConfirmed));
        } else {
          mismatch := true;
          row := row.(lastError := Some(TermsMismatch));
        }
      }
    }
  }

  method LifecycleRow(r: Row, target: State, mismatch: bool, ghost how: Settlement) returns (row: Row)
    requires mismatch <==> how == Mismatch
    requires !mismatch ==> (r.pendingRequest.Some? <==> how == StillPending)
    ensures row == MovedRow(r, target, how)
  {
    row := r;
    var current := row.state;
    if mismatch {
      if !Terminal(current) { row := row.(state := Unknown); }
    } else if Terminal(current) && current != target {
      row := row.(lastError := Some(TerminalConflict(current, target)));
    } else if current == ReplacePending && row.pendingRequest.Some? && !Terminal(target) {
      // The status may still describe the order as it was before the replacement.
    } else if !Regression(current, target) {
      row := row.(state := target);
    }
    if Terminal(target) { row := row.(pendingHash := None, pendingRequest := None); }
  }

  /** The broker-authoritative status update, statement by statement. */
  method StatusRow(r: Row, target: State, st: Status, settle: bool) returns (row: Row)
    requires PendingPaired(r)
    ensures row == ApplyStatus(r, target, st, settle)
  {
    var mismatch: bool;
    row, mismatch := PendingRow(r, st, settle);
    row := LifecycleRow(row, target, mismatch, Settle(r, st, settle));
    row := row.(journal := row.journal.(wireStatus := Some(st.word)));
    row := row.(links := Links(Some(st.orderId), st.clientId, st.permanentId, st.parentId));
    row := row.(progress := Progress(st.filled, st.remaining, st.avgFillPrice));
    if StampedOf(row) != StampedOf(r) { row := row.(revision := row.revision + 1); }
  }

  method FillRow(r: Row, corrects: bool, quantity: real, value: real) returns (row: Row)
    ensures row == ApplyFill(r, corrects, quantity, value)
  {
    row := r;
    if corrects || quantity >= row.progress.filled {
      var filled := Min(row.columns.quantity, quantity);
      row := row.(progress := row.progress.(filled := filled));
      row := row.(progress := row.progress.(remaining := Max(0.0, row.columns.quantity - filled)));
      if quantity > 0.0 { row := row.(progress := row.progress.(avgFillPrice := value / quantity)); }
    }
    if row.progress.remaining == 0.0 && row.progress.filled > 0.0 {
      row := row.(state := Filled);
    } else if row.progress.filled > 0.0 && !Terminal(row.state) {
      row := row.(state := PartialFill);
    }
    row := row.(revision := row.revision + 1);
  }

  // ---------------------------------------------------- what it does to whole tables

  function ClaimedPart(t: Table, ids: seq<string>, attempt: string, now: int): Table {
    map id | id in t ::
      if id in ids && t[id].state == Authorized then ClaimSubmission(t[id], attempt, now).value else t[id]
  }

  /** The UPDATE reaches one more row. */
  function ClaimedNext(t: Table, id: string, attempt: string, now: int): Table {
    if id in t && ClaimSubmission(t[id], attempt, now).Some? then t[id := ClaimSubmission(t[id], attempt, now).value]
    else t
  }

  lemma {:induction false} OneMoreClaim(t: Table, ids: seq<string>, i: nat, attempt: string, now: int)
    requires i < |ids| && Distinct(ids)
    ensures var id, part := ids[i], ClaimedPart(t, ids[..i], attempt, now);
      && ClaimedPart(t, ids[..i + 1], attempt, now) == ClaimedNext(part, id, attempt, now)
      && var free := id in part && ClaimSubmission(part[id], attempt, now).Some?;
         AllAuthorized(t, ids[..i + 1]) <==> AllAuthorized(t, ids[..i]) && free
  {
    assert ids[..i + 1] == ids[..i] + [ids[i]];
    assert ids[i] !in ids[..i];
  }

  lemma {:induction false} WholeClaim(t: Table, ids: seq<string>, attempt: string, now: int)
    requires Keyed(t) && (forall id <- t :: PendingPaired(t[id])) && ids != [] && Distinct(ids) && AllAuthorized(t, ids)
    ensures var t' := ClaimedPart(t, ids, attempt, now);
      && ClaimGroup(t, ids, attempt, now) == (t', Ok(true))
      && Keyed(t') && forall id <- t' :: PendingPaired(t'[id])
  {
    assert forall id <- t | id in ids :: t[id].state == Authorized;
    assert ClaimGroup(t, ids, attempt, now).0 == ClaimedPart(t, ids, attempt, now);
  }

  lemma {:induction false} OneMoreRow(t: Table, todo: set<string>, id: string, account: string)
    requires id in todo && id in t
    ensures OpenNotional(t - (todo - {id}), account) == OpenNotional(t - todo, account) + RowRisk(t[id], account)
  {
    OpenNotionalAfterWrite(t - todo, id, t[id], account);
    assert (t - todo)[id := t[id]] == t - (todo - {id});
  }

  /** Inserts a new version, superseding earlier ones, or refreshes a known record. */
  method RecordVersion(xs: seq<ExecRow>, e: Execution, order: Option<string>)
    returns (ys: seq<ExecRow>, isNew: bool, corrects: bool)
    ensures ys == UpsertRows(xs, e, order)
    ensures isNew <==> Find(xs, e.execId) == |xs|
    ensures corrects == HasPrior(xs, e)
  {
    var k := Find(xs, e.execId);
    corrects, isNew := HasPrior(xs, e), k == |xs|;
    if isNew {
      var rest := SupersedePriors(xs, e);
      ys := rest + [ExecRow(e, RootId(e.execId), corrects, false, order)];
    } else {
      ys := xs[k := Refreshed(xs[k], e, order, corrects)];
    }
  }

  method SupersedePriors(xs: seq<ExecRow>, e: Execution) returns (ys: seq<ExecRow>)
    ensures ys == Superseded(xs, e)
  {
    ys := xs;
    for i := 0 to |xs|
      invariant |ys| == |xs| && ys[i..] == xs[i..] && ys[..i] == Superseded(xs, e)[..i]
    {
      assert ys[i] == ys[i..][0] == xs[i];
      if PriorVersion(ys[i], e) { ys := ys[i := ys[i].(superseded := true)]; }
    }
  }

  method SumLive(xs: seq<ExecRow>, id: string) returns (quantity: real, value: real)
    ensures quantity == LiveQuantity(xs, id) && value == LiveValue(xs, id)
  {
    quantity, value := 0.0, 0.0;
    for i := 0 to |xs|
      invariant quantity == LiveQuantity(xs[..i], id) && value == LiveValue(xs[..i], id)
    {
      assert xs[..i + 1][..i] == xs[..i];
      if Counts(xs[i], id) {
        quantity := quantity + xs[i].execution.quantity;
        value := value + xs[i].execution.quantity * xs[i].execution.price;
      }
    }
    assert xs[..|xs|] == xs;
  }

  /** The order an execution record ends up linked to. */
  function LinkOf(t: Table, xs: seq<ExecRow>, e: Execution): Option<string> {
    var order, k := MatchOrder(t, KeyOf(e)), Find(xs, e.execId);
    if k < |xs| && order.None? then xs[k].order else order
  }
}
