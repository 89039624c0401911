/**
 The TTL pass: an order without a broker id expires at once, one the broker knows is cancelled
 first.  What the first branch does to the rebuilt open-order exposure follows.
 */
module Supervisor {
  import opened Wrappers
  import opened Orders
  import opened OrderTable
  import opened OrderRuns
  import opened OpenRisk
  import opened Ledger
  import Exposure

  /** Past its TTL and still open. */
  predicate Due(r: Row, account: string, now: int) {
    && r.id.account == account && !Terminal(r.state) && r.id.expiresAt.Some? && r.id.expiresAt.value <= now
  }

  predicate DueUnsent(r: Row, account: string, now: int) { Due(r, account, now) && r.links.orderId.None? }

  const TTL_ELAPSED: Note := Reason("order intent TTL elapsed before broker submission")
  const CANCEL_UNKNOWN: Note := Reason("cancellation outcome unknown")
  const TTL_CANCEL_UNKNOWN: Note := Reason("TTL cancellation outcome unknown")

  function Expiry(r: Row): Option<Row> { Transition(r, Expired, None, None, Some(TTL_ELAPSED)) }

  /** What becomes of the broker call inside a cancellation. */
  datatype Answer = NoLease | Raised | Answered(st: Status)

  datatype Reply = Reply(attempt: string, at: int, answer: Answer)

  function MarkedUnknown(r: Row, why: Note): Row {
    var moved := Transition(r, Unknown, None, None, Some(why));
    if moved.Some? then moved.value else r
  }

  /** A claimed cancellation once the broker has answered, or failed to. */
  function Told(r: Row, answer: Answer): Row
    requires PendingPaired(r) && !answer.NoLease?
  {
    if answer.Raised? then MarkedUnknown(r, CANCEL_UNKNOWN)
    else ApplyStatus(r, LifecycleFromStatus(answer.st), answer.st, false)
  }

  /** `cancel` on an open row: what it leaves, and the state it returns unless it raises. */
  function CancelOpen(r: Row, expected: nat, reply: Reply): (Row, Option<State>)
    requires PendingPaired(r) && !reply.answer.NoLease?
  {
    var claim := ClaimCancellation(r, expected, reply.attempt, reply.at);
    if claim.None? then (r, if r.state == CancelPending || r.state == Unknown then Some(r.state) else None)
    else (Told(claim.value, reply.answer), Some(Told(claim.value, reply.answer).state))
  }

  function Cancel(r: Row, expected: nat, reply: Reply): (Row, Option<State>)
    requires PendingPaired(r)
  {
    if reply.answer.NoLease? then (r, None)
    else if Terminal(r.state) then (r, Some(r.state))
    else CancelOpen(r, expected, reply)
  }

  /** A due order the broker knows is cancelled there first. */
  function ExpireSent(r: Row, now: int, reply: Reply): Row
    requires PendingPaired(r)
  {
    var (after, state) := Cancel(r, r.revision, reply);
    if state.None? then MarkedUnknown(after, TTL_CANCEL_UNKNOWN)
    else if state.value == Cancelled && MarkExpired(after, now).Some? then MarkExpired(after, now).value
    else after
  }

  function Expire(r: Row, account: string, now: int, reply: Reply): Row
    requires PendingPaired(r)
  {
    if !Due(r, account, now) then r
    else if r.links.orderId.Some? then ExpireSent(r, now, reply)
    else if Expiry(r).Some? then Expiry(r).value
    else r
  }

  /** A due order in a state from which expiry is refused. */
  predicate Stuck(r: Row, account: string, now: int) { DueUnsent(r, account, now) && Expiry(r).None? }

  method MarkUnknown(ledger: OrderLedger, id: string, why: Note)
    requires ledger.Valid() && id in ledger.orders
    modifies ledger`orders
    ensures ledger.Valid() && ledger.orders == old(ledger.orders)[id := MarkedUnknown(old(ledger.orders)[id], why)]
  {
    var _ := ledger.TransitionOrder(id, Unknown, None, None, Some(why));
  }

  method TakeAnswer(ledger: OrderLedger, id: string, answer: Answer)
    requires ledger.Valid() && id in ledger.orders && !answer.NoLease?
    modifies ledger`orders
    ensures ledger.Valid() && ledger.orders == old(ledger.orders)[id := Told(old(ledger.orders)[id], answer)]
  {
    if answer.Raised? {
      MarkUnknown(ledger, id, CANCEL_UNKNOWN);
    } else {
      var _ := ledger.ApplyReconciledStatus(id, LifecycleFromStatus(answer.st), answer.st, false);
    }
  }

  method CancelOpenOne(ledger: OrderLedger, id: string, expected: nat, reply: Reply) returns (state: Option<State>)
    requires ledger.Valid() && id in ledger.orders && !reply.answer.NoLease?
    modifies ledger`orders
    ensures ledger.Valid()
    ensures ledger.orders == old(ledger.orders)[id := CancelOpen(old(ledger.orders)[id], expected, reply).0]
    ensures state == CancelOpen(old(ledger.orders)[id], expected, reply).1
  {
    var row := ledger.orders[id];
    var won := ledger.ClaimCancellationOf(id, expected, reply.attempt, reply.at);
    if !won {
      return if row.state == CancelPending || row.state == Unknown then Some(row.state) else None;
    }
    TakeAnswer(ledger, id, reply.answer);
    return Some(ledger.orders[id].state);
  }

  method CancelOne(ledger: OrderLedger, id: string, expected: nat, reply: Reply) returns (state: Option<State>)
    requires ledger.Valid() && id in ledger.orders
    modifies ledger`orders
    ensures ledger.Valid()
    ensures ledger.orders == old(ledger.orders)[id := Cancel(old(ledger.orders)[id], expected, reply).0]
    ensures state == Cancel(old(ledger.orders)[id], expected, reply).1
  {
    if reply.answer.NoLease? { return None; }
    if Terminal(ledger.orders[id].state) { return Some(ledger.orders[id].state); }
    state := CancelOpenOne(ledger, id, expected, reply);
  }

  method ExpireOne(ledger: OrderLedger, id: string, account: string, now: int, reply: Reply) returns (ok: bool)
    requires ledger.Valid() && id in ledger.orders
    modifies ledger`orders
    ensures ledger.Valid() && ok == !Stuck(old(ledger.orders)[id], account, now)
    ensures ledger.orders == old(ledger.orders)[id := Expire(old(ledger.orders)[id], account, now, reply)]
  {
    var row := ledger.orders[id];
    if !Due(row, account, now) { return true; }
    if row.links.orderId.None? {
      var moved := ledger.TransitionOrder(id, Expired, None, None, Some(TTL_ELAPSED));
      return moved.Ok?;
    }
    var state := CancelOne(ledger, id, row.revision, reply);
    if state.None? {
      MarkUnknown(ledger, id, TTL_CANCEL_UNKNOWN);
    } else if state.value == Cancelled {
      var _ := ledger.MarkExpiredAfterCancel(id, now);
    }
    return true;
  }

  /** Every due order is expired or cancelled; one that may not expire raises and stops the pass. */
  method ExpireDueOrders(ledger: OrderLedger, account: string, now: int, replies: string -> Reply) returns (ok: bool)
    requires ledger.Valid()
    modifies ledger`orders
    ensures ledger.Valid() && ledger.orders.Keys == old(ledger.orders.Keys)
    ensures ok <==> forall id <- old(ledger.orders) :: !Stuck(old(ledger.orders)[id], account, now)
    ensures ok ==> forall id <- old(ledger.orders) ::
      ledger.orders[id] == Expire(old(ledger.orders)[id], account, now, replies(id))
  {
    ghost var before := ledger.orders;
    var todo := ledger.orders.Keys;
    while todo != {}
      invariant ledger.Valid() && todo <= ledger.orders.Keys == before.Keys
      invariant forall id <- todo :: ledger.orders[id] == before[id]
      invariant forall id <- before :: id !in todo ==>
        ledger.orders[id] == Expire(before[id], account, now, replies(id)) && !Stuck(before[id], account, now)
      decreases todo
    {
      var id :| id in todo;
      var expired := ExpireOne(ledger, id, account, now, replies(id));
      if !expired { return false; }
      todo := todo - {id};
    }
    return true;
  }

  /** A claimed cancellation ends in the state of the broker's answer, or in UNKNOWN. */
  lemma {:induction false} ToldState(r: Row, answer: Answer)
    requires PendingPaired(r) && r.state == CancelPending && !answer.NoLease?
    ensures var state := Told(r, answer).state;
      && (Terminal(state) <==> answer.Answered? && Terminal(LifecycleFromStatus(answer.st)))
      && (Terminal(state) ==> state == LifecycleFromStatus(answer.st))
  {
  }

  lemma {:induction false} CancelState(r: Row, reply: Reply)
    requires PendingPaired(r) && !Terminal(r.state) && r.links.orderId.Some?
    ensures var (after, state) := Cancel(r, r.revision, reply);
      && (Terminal(after.state) <==>
            Cancellable(r.state) && reply.answer.Answered? && Terminal(LifecycleFromStatus(reply.answer.st)))
      && (Terminal(after.state) ==> after.state == LifecycleFromStatus(reply.answer.st) && state == Some(after.state))
      && (state.Some? ==> state.value == after.state)
  {
    if !reply.answer.NoLease? && Cancellable(r.state) {
      ToldState(ClaimCancellation(r, r.revision, reply.attempt, reply.at).value, reply.answer);
    }
  }

  /** Nothing, or everything, of the order was filled, as far as the status says. */
  predicate Unsplit(st: Status) { !(st.filled > 0.0 && st.remaining > 0.0) }

  predicate Complete(st: Status) { st.quantity.Some? && st.filled >= st.quantity.value }

  predicate SaysCancelled(st: Status) { st.word == WCancelled || st.word == WApiCancelled }

  /**
   An order the broker knows expires if and only if its cancellation was claimed and answered by
   a cancelled status that is neither complete nor partly filled.  A raised call, a lost lease or
   any other answer leaves it open, or closed as the broker says.
   */
  lemma {:induction false} SentExpiresIff(r: Row, account: string, now: int, reply: Reply)
    requires PendingPaired(r) && Due(r, account, now) && r.links.orderId.Some?
    ensures var after := Expire(r, account, now, reply);
      && (after.state == Expired <==>
            Cancellable(r.state) && reply.answer.Answered?
            && SaysCancelled(reply.answer.st) && Unsplit(reply.answer.st) && !Complete(reply.answer.st))
      && (Terminal(after.state) <==>
            Cancellable(r.state) && reply.answer.Answered?
            && (Complete(reply.answer.st) || (Unsplit(reply.answer.st) && ClosingWord(reply.answer.st.word))))
      && (Terminal(after.state) && after.state != Expired ==> after.state == LifecycleFromStatus(reply.answer.st))
  {
    CancelState(r, reply);
    if reply.answer.Answered? { StatusClosesIff(reply.answer.st); }
  }

  /**
   So a cancellation that reports both a filled and a remaining part leaves the order pending,
   and as long as the lease is held no later pass ever changes it.
   */
  lemma {:induction false} SplitCancellationStaysOpen(
    r: Row, account: string, now: int, reply: Reply, later: int, again: Reply)
    requires PendingPaired(r) && Due(r, account, now) && r.links.orderId.Some? && Cancellable(r.state)
    requires reply.answer.Answered? && !Unsplit(reply.answer.st) && !Complete(reply.answer.st)
    ensures var after := Expire(r, account, now, reply);
      && after.state == CancelPending && PendingPaired(after)
      && (!again.answer.NoLease? ==> Expire(after, account, later, again) == after)
  {
    var claimed := ClaimCancellation(r, r.revision, reply.attempt, reply.at).value;
    StatusClosesIff(reply.answer.st);
    SplitAnswer(claimed, reply.answer.st);
    assert Expire(r, account, now, reply) == Told(claimed, reply.answer);
  }

  lemma {:induction false} SplitAnswer(r: Row, st: Status)
    requires PendingPaired(r) && r.state == CancelPending && LifecycleFromStatus(st) == PartialFill
    ensures var told := Told(r, Answered(st));
      told.state == CancelPending && PendingPaired(told) && told.links.orderId.Some?
  {
  }

  /**
   Expiring an order removes exposure from the books if and only if its submission had started:
   the branch looks at the broker id, which arrives only with the first answer.
   */
  lemma {:induction false} ExpiryHidesExposureIff(r: Row, account: string, now: int)
    requires DueUnsent(r, account, now) && r.state != ReplacePending && Valued(r, account)
    ensures Expiry(r).Some? && Expiry(r).value.state == Expired && RowRisk(Expiry(r).value, account) == 0.0
    ensures RowRisk(r, account) > 0.0 <==> r.journal.submissionStarted.Some? && r.progress.remaining > 0.0
  {
    if Counted(r, account) {
      assert UnitRisk(r).value > 0.0;
      assert r.progress.remaining * UnitRisk(r).value > 0.0;
    }
  }

  /** An order that was claimed, and perhaps sent, but not answered within its TTL is such a case. */
  lemma {:induction false} UnansweredSubmissionExpires(r: Row, attempt: string, sentAt: int, now: int, live: real)
    requires r.state == Authorized && r.links.orderId.None? && r.id.expiresAt.Some? && r.id.expiresAt.value <= now
    requires Exposure.PlainRow(r) && r.progress.remaining == r.request.quantity && live > 0.0
    ensures var claimed := ClaimSubmission(r, attempt, sentAt).value;
      && DueUnsent(claimed, r.id.account, now) && Expiry(claimed).Some?
      && RowRisk(claimed, r.id.account) > 0.0 && RowRisk(Expiry(claimed).value, r.id.account) == 0.0
      && !Exposure.Truthful(claimed, Some(live), DoTransition(Expired, None, None, Some(TTL_ELAPSED)))
  {
    var claimed := ClaimSubmission(r, attempt, sentAt).value;
    assert UnitRisk(claimed).Some?;
    ExpiryHidesExposureIff(claimed, r.id.account, now);
  }
}
