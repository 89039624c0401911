/**
 At-most-once placement.  Any number of SDK calls (single, bracket, one-cancels-all)
 run as small programs whose database transactions interleave with one another and
 with everything else that writes order rows; any call may crash between two of its
 steps.  `placed` is the history of orders handed to the broker as new.
 */
module Placement {
  import opened Wrappers
  import opened Orders
  import opened OrderTable
  import opened OrderRuns

  /** Where a call stands; `next` is the member its current loop has reached. */
  datatype Pc =
    | Opening(next: nat)
    | Rejecting(next: nat)
    | Authorizing(next: nat)
    | Claimed
    | Recording(next: nat)
    | Done

  datatype Call = Call(intents: seq<Intent>, linked: bool, pc: Pc, seen: seq<State>)

  datatype Sent = Sent(clientOrderId: string, request: Request)

  datatype Sys = Sys(orders: Table, calls: map<nat, Call>, placed: seq<Sent>)

  datatype Action =
    | Begin(p: nat, intents: seq<Intent>, linked: bool)
    | Open(p: nat, expected: Option<int>)       // create_or_get_intent of the next member
    | Decide(p: nat, approved: bool)            // every gate passed, risk has answered
    | Fail(p: nat)                              // a gate raises: session, lease, safety, quote, pacing, ...
    | Reject(p: nat, decision: string, reason: Note)
    | Authorize(p: nat, decision: string)
    | Claim(p: nat, attempt: string, now: int)
    | Place(p: nat)                             // the broker is called
    | Record(p: nat, answer: Option<Status>)    // its answer, or an exception, is written for the next member
    | Crash(p: nat)
    | Elsewhere(id: string, step: Step)         // callbacks, TTL expiry, cancel, replace, fills, reconciliation

  function Ids(intents: seq<Intent>): (ids: seq<string>)
    ensures |ids| == |intents| && forall i | 0 <= i < |ids| :: ids[i] == intents[i].clientOrderId
  {
    seq(|intents|, i requires 0 <= i < |intents| => intents[i].clientOrderId)
  }

  function SentBy(intents: seq<Intent>): (out: seq<Sent>)
    ensures |out| == |intents|
    ensures forall i | 0 <= i < |out| :: out[i] == Sent(intents[i].clientOrderId, intents[i].request)
  {
    seq(|intents|, i requires 0 <= i < |intents| => Sent(intents[i].clientOrderId, intents[i].request))
  }

  /** Statuses reach the ledger only with the lifecycle state they denote, or as a validated what-if. */
  predicate Reported(step: Step) {
    step.DoApplyStatus? ==> step.target == LifecycleFromStatus(step.st) || step.target == Validated
  }

  function At(c: Call, pc: Pc): Call { c.(pc := pc) }

  function With(s: Sys, t: Table, p: nat, c: Call): Sys { s.(orders := t, calls := s.calls[p := c]) }

  function RowOr(t: Table, id: string, r: Option<Row>): Table {
    if r.Some? then t[id := r.value] else t
  }

  function OpenMember(s: Sys, p: nat, c: Call, next: nat, expected: Option<int>): Sys
    requires next < |c.intents|
  {
    var (t, got) := CreateOrGet(s.orders, c.intents[next], expected);
    if got.Err? then With(s, t, p, At(c, Done))
    else With(s, t, p, c.(pc := Opening(next + 1), seen := c.seen + [got.value.row.state]))
  }

  function AuthorizeMember(s: Sys, p: nat, c: Call, next: nat, decision: string): Sys
    requires next < |c.intents| && next < |c.seen|
  {
    var id := c.intents[next].clientOrderId;
    if c.seen[next] != IntentPersisted then With(s, s.orders, p, At(c, Authorizing(next + 1)))
    else if id !in s.orders then With(s, s.orders, p, At(c, Done))
    else
      var moved := Transition(s.orders[id], Authorized, None, Some(decision), None);
      With(s, RowOr(s.orders, id, moved), p, At(c, if moved.Some? then Authorizing(next + 1) else Done))
  }

  function RejectMember(s: Sys, p: nat, c: Call, next: nat, decision: string, reason: Note): Sys
    requires next < |c.intents|
  {
    var id := c.intents[next].clientOrderId;
    if id !in s.orders then With(s, s.orders, p, At(c, Done))
    else
      var moved := Transition(s.orders[id], RiskRejected, None, Some(decision), Some(reason));
      With(s, RowOr(s.orders, id, moved), p, At(c, if moved.Some? then Rejecting(next + 1) else Done))
  }

  function RecordMember(s: Sys, p: nat, c: Call, next: nat, answer: Option<Status>): Sys
    requires next < |c.intents|
  {
    var id, next' := c.intents[next].clientOrderId, At(c, Recording(next + 1));
    if id !in s.orders then With(s, s.orders, p, At(c, Done))
    else
      var r := s.orders[id];
      match answer
      case Some(st) =>
        var target := if !c.linked && c.intents[next].request.whatIf then Validated else LifecycleFromStatus(st);
        With(s, RowOr(s.orders, id, StepRow(r, DoApplyStatus(target, st, false))), p, next')
      case None =>
        var marked := if Terminal(r.state) then None
                      else Transition(r, Unknown, None, None, Some(Reason("submission outcome unknown")));
        With(s, RowOr(s.orders, id, marked), p, next')
  }

  /** One atomic step; `None` when the action is not enabled. */
  function StepSys(s: Sys, a: Action): Option<Sys> {
    match a
    case Begin(p, intents, linked) =>
      if p in s.calls || intents == [] || (!linked && |intents| != 1) then None
      else Some(s.(calls := s.calls[p := Call(intents, linked, Opening(0), [])]))
    case Open(p, expected) =>
      if p !in s.calls || !s.calls[p].pc.Opening? || s.calls[p].pc.next >= |s.calls[p].intents| then None
      else Some(OpenMember(s, p, s.calls[p], s.calls[p].pc.next, expected))
    case Decide(p, approved) =>
      if p !in s.calls || !s.calls[p].pc.Opening? || s.calls[p].pc.next != |s.calls[p].intents| then None
      else
        var c := s.calls[p];
        var pc := if exists i :: 0 <= i < |c.seen| && !Fresh(c.seen[i]) then Done
                  else if approved then Authorizing(0) else Rejecting(0);
        Some(With(s, s.orders, p, At(c, pc)))
    case Fail(p) =>
      if p !in s.calls then None else Some(With(s, s.orders, p, At(s.calls[p], Done)))
    case Reject(p, decision, reason) =>
      if p !in s.calls || !s.calls[p].pc.Rejecting? || s.calls[p].pc.next >= |s.calls[p].intents| then None
      else Some(RejectMember(s, p, s.calls[p], s.calls[p].pc.next, decision, reason))
    case Authorize(p, decision) =>
      if p !in s.calls || !s.calls[p].pc.Authorizing? || s.calls[p].pc.next >= |s.calls[p].intents|
         || s.calls[p].pc.next >= |s.calls[p].seen|
      then None
      else Some(AuthorizeMember(s, p, s.calls[p], s.calls[p].pc.next, decision))
    case Claim(p, attempt, now) =>
      if p !in s.calls || !s.calls[p].pc.Authorizing? || s.calls[p].pc.next != |s.calls[p].intents| then None
      else
        var (t, won) := ClaimGroup(s.orders, Ids(s.calls[p].intents), attempt, now);
        Some(With(s, t, p, At(s.calls[p], if won == Ok(true) then Claimed else Done)))
    case Place(p) =>
      if p !in s.calls || !s.calls[p].pc.Claimed? then None
      else
        var c := s.calls[p];
        Some(With(s, s.orders, p, At(c, Recording(0))).(placed := s.placed + SentBy(c.intents)))
    case Record(p, answer) =>
      if p !in s.calls || !s.calls[p].pc.Recording? || s.calls[p].pc.next >= |s.calls[p].intents| then None
      else Some(RecordMember(s, p, s.calls[p], s.calls[p].pc.next, answer))
    case Crash(p) =>
      if p !in s.calls then None else Some(s.(calls := s.calls - {p}))
    case Elsewhere(id, step) =>
      if id !in s.orders || !Reported(step) then None
      else Some(s.(orders := RowOr(s.orders, id, StepRow(s.orders[id], step))))
  }

  // ------------------------------------------------------------------ the invariant

  /** What every write to an order row respects. */
  predicate RowMoves(r: Row, r': Row) {
    r'.id == r.id && (Fresh(r'.state) ==> Fresh(r.state))
  }

  ghost predicate TableMoves(t: Table, t': Table) {
    forall id <- t :: id in t' && RowMoves(t[id], t'[id])
  }

  /** AUTHORIZED and INTENT_PERSISTED are never entered again once left. */
  lemma {:induction false} FreshNeverReentered(r: Row, step: Step, r': Row)
    requires StepRow(r, step) == Some(r') && Reported(step)
    ensures RowMoves(r, r')
  {
    match step
    case DoTransition(target, reported, decision, reason) => if Fresh(target) { TransitionLeaves(r, target); }
    case _ =>
  }

  lemma {:induction false} TransitionLeaves(r: Row, target: State)
    requires TransitionAllowed(r.state, target) && Fresh(target)
    ensures Fresh(r.state)
  {
  }

  /** The members a call has opened carry exactly the payload first persisted under their id. */
  ghost predicate Opened(t: Table, c: Call, n: nat) {
    n <= |c.intents| && forall i | 0 <= i < n :: Persisted(t, c.intents[i])
  }

  ghost predicate Persisted(t: Table, intent: Intent) {
    intent.clientOrderId in t && t[intent.clientOrderId].id.intentHash == HashOf(intent)
  }

  ghost predicate CallOk(t: Table, c: Call) {
    match c.pc
    case Opening(next) => Opened(t, c, next)
    case Done => true
    case Claimed =>
      && Opened(t, c, |c.intents|) && Distinct(Ids(c.intents))
      && forall i | 0 <= i < |c.intents| :: !Fresh(t[c.intents[i].clientOrderId].state)
    case _ => Opened(t, c, |c.intents|)
  }

  /** `id` is about to be placed by call `p`. */
  ghost predicate Holds(s: Sys, p: nat, id: string) {
    p in s.calls && s.calls[p].pc.Claimed? && id in Ids(s.calls[p].intents)
  }

  ghost predicate PlacedBefore(s: Sys, id: string) {
    exists i :: 0 <= i < |s.placed| && s.placed[i].clientOrderId == id
  }

  ghost predicate PlacedOk(t: Table, x: Sent) {
    && x.clientOrderId in t && !Fresh(t[x.clientOrderId].state)
    && t[x.clientOrderId].id.intentHash.request == x.request
  }

  ghost predicate PlacedOnce(placed: seq<Sent>) {
    forall i, j | 0 <= i < j < |placed| :: placed[i].clientOrderId != placed[j].clientOrderId
  }

  ghost predicate Inv(s: Sys) {
    && Keyed(s.orders)
    && (forall p <- s.calls :: CallOk(s.orders, s.calls[p]))
    && (forall i | 0 <= i < |s.placed| :: PlacedOk(s.orders, s.placed[i]))
    && PlacedOnce(s.placed)
    && (forall p, id | Holds(s, p, id) :: !PlacedBefore(s, id))
    && (forall p, q, id | Holds(s, p, id) && Holds(s, q, id) :: p == q)
  }

  // --------------------------------------------------------------- it is inductive

  lemma {:induction false} CallOkMoves(t: Table, t': Table, c: Call)
    requires TableMoves(t, t') && CallOk(t, c)
    ensures CallOk(t', c)
  {
    forall intent: Intent | Persisted(t, intent) ensures Persisted(t', intent) {
      assert RowMoves(t[intent.clientOrderId], t'[intent.clientOrderId]);
    }
    if c.pc.Claimed? {
      forall i | 0 <= i < |c.intents| ensures !Fresh(t'[c.intents[i].clientOrderId].state) {
        assert Persisted(t, c.intents[i]);
        assert RowMoves(t[c.intents[i].clientOrderId], t'[c.intents[i].clientOrderId]);
      }
    }
  }

  /** A step that touches one call, claims nothing and places nothing. */
  lemma {:induction false} QuietStep(s: Sys, s': Sys, p: nat)
    requires Inv(s) && Keyed(s'.orders) && TableMoves(s.orders, s'.orders) && s'.placed == s.placed
    requires forall q | q != p :: (q in s'.calls <==> q in s.calls) && (q in s.calls ==> s'.calls[q] == s.calls[q])
    requires p in s'.calls ==> !s'.calls[p].pc.Claimed? && CallOk(s'.orders, s'.calls[p])
    ensures Inv(s')
  {
    forall q <- s'.calls ensures CallOk(s'.orders, s'.calls[q]) {
      if q != p { CallOkMoves(s.orders, s'.orders, s.calls[q]); }
    }
    forall i | 0 <= i < |s'.placed| ensures PlacedOk(s'.orders, s'.placed[i]) {
      assert PlacedOk(s.orders, s.placed[i]);
      assert RowMoves(s.orders[s.placed[i].clientOrderId], s'.orders[s.placed[i].clientOrderId]);
    }
    assert forall q, id | Holds(s', q, id) :: Holds(s, q, id);
    assert forall id | PlacedBefore(s', id) :: PlacedBefore(s, id);
  }

  lemma {:induction false} HeldHasLeft(s: Sys, p: nat, id: string)
    requires Inv(s) && Holds(s, p, id)
    ensures id in s.orders && !Fresh(s.orders[id].state)
  {
    var c := s.calls[p];
    var i :| 0 <= i < |c.intents| && Ids(c.intents)[i] == id;
    assert CallOk(s.orders, c) && Persisted(s.orders, c.intents[i]);
  }

  lemma {:induction false} PlacedHasLeft(s: Sys, id: string)
    requires Inv(s) && PlacedBefore(s, id)
    ensures id in s.orders && !Fresh(s.orders[id].state)
  {
    var i :| 0 <= i < |s.placed| && s.placed[i].clientOrderId == id;
    assert PlacedOk(s.orders, s.placed[i]);
  }

  lemma {:induction false} ClaimTable(s: Sys, p: nat, attempt: string, now: int)
    requires Inv(s) && p in s.calls && s.calls[p].pc.Authorizing?
    requires ClaimGroup(s.orders, Ids(s.calls[p].intents), attempt, now).1 == Ok(true)
    ensures var t := ClaimGroup(s.orders, Ids(s.calls[p].intents), attempt, now).0;
      && Keyed(t) && TableMoves(s.orders, t)
      && CallOk(t, At(s.calls[p], Claimed))
      && forall id <- Ids(s.calls[p].intents) :: id in s.orders && Fresh(s.orders[id].state)
  {
    var c := s.calls[p];
    var ids := Ids(c.intents);
    var t := ClaimGroup(s.orders, ids, attempt, now).0;
    GroupClaimIsAtomic(s.orders, ids, attempt, now);
    CallOkMoves(s.orders, t, c);
    forall i | 0 <= i < |c.intents| ensures !Fresh(t[c.intents[i].clientOrderId].state) {
      assert ids[i] in ids;
    }
  }

  /** What is being claimed was fresh, so no one holds it and it was never placed. */
  lemma {:induction false} ClaimStep(s: Sys, p: nat, attempt: string, now: int)
    requires Inv(s) && p in s.calls && s.calls[p].pc.Authorizing?
    requires ClaimGroup(s.orders, Ids(s.calls[p].intents), attempt, now).1 == Ok(true)
    ensures Inv(With(s, ClaimGroup(s.orders, Ids(s.calls[p].intents), attempt, now).0, p, At(s.calls[p], Claimed)))
  {
    ClaimTable(s, p, attempt, now);
    var t := ClaimGroup(s.orders, Ids(s.calls[p].intents), attempt, now).0;
    NewHolder(s, With(s, t, p, At(s.calls[p], Claimed)), p);
  }

  lemma {:induction false} NewHolder(s: Sys, s': Sys, p: nat)
    requires Inv(s) && p in s.calls && Keyed(s'.orders) && TableMoves(s.orders, s'.orders)
    requires s'.placed == s.placed && s'.calls == s.calls[p := At(s.calls[p], Claimed)]
    requires CallOk(s'.orders, s'.calls[p])
    requires forall id <- Ids(s.calls[p].intents) :: id in s.orders && Fresh(s.orders[id].state)
    ensures Inv(s')
  {
    QuietStep(s, s'.(calls := s.calls[p := At(s.calls[p], Done)]), p);
    forall q, id | Holds(s, q, id) ensures id in s.orders && !Fresh(s.orders[id].state) { HeldHasLeft(s, q, id); }
    forall id | PlacedBefore(s, id) ensures id in s.orders && !Fresh(s.orders[id].state) { PlacedHasLeft(s, id); }
    assert forall q, id | Holds(s', q, id) :: Holds(s, q, id) || (q == p && id in Ids(s.calls[p].intents));
    assert forall id | PlacedBefore(s', id) :: PlacedBefore(s, id);
  }

  /** What a claimed call places is persisted and has left the fresh states. */
  lemma {:induction false} PlacedRows(s: Sys, p: nat)
    requires Inv(s) && p in s.calls && s.calls[p].pc.Claimed?
    ensures forall x <- SentBy(s.calls[p].intents) :: PlacedOk(s.orders, x)
  {
    var c := s.calls[p];
    assert CallOk(s.orders, c);
    forall i | 0 <= i < |c.intents| ensures PlacedOk(s.orders, SentBy(c.intents)[i]) {
      assert Persisted(s.orders, c.intents[i]);
    }
  }

  lemma {:induction false} PlacedOnceJoin(placed: seq<Sent>, more: seq<Sent>)
    requires PlacedOnce(placed) && PlacedOnce(more)
    requires forall i, j | 0 <= i < |placed| && 0 <= j < |more| :: placed[i].clientOrderId != more[j].clientOrderId
    ensures PlacedOnce(placed + more)
  {
  }

  /** What a claimed call places has not been placed before, nor twice by itself. */
  lemma {:induction false} PlacedStayOnce(s: Sys, p: nat)
    requires Inv(s) && p in s.calls && s.calls[p].pc.Claimed?
    ensures PlacedOnce(s.placed + SentBy(s.calls[p].intents))
  {
    var c := s.calls[p];
    var more := SentBy(c.intents);
    assert CallOk(s.orders, c) && Distinct(Ids(c.intents));
    forall i, j | 0 <= i < j < |more| ensures more[i].clientOrderId != more[j].clientOrderId {
      assert Ids(c.intents)[i] != Ids(c.intents)[j];
    }
    forall i, j | 0 <= i < |s.placed| && 0 <= j < |more| ensures s.placed[i].clientOrderId != more[j].clientOrderId {
      assert Holds(s, p, Ids(c.intents)[j]);
      assert PlacedBefore(s, s.placed[i].clientOrderId);
    }
    PlacedOnceJoin(s.placed, more);
  }

  /** After placing, an id was placed before or was held by the call, and nobody else holds more. */
  lemma {:induction false} PlacedOrHeld(s: Sys, p: nat, id: string)
    requires p in s.calls && s.calls[p].pc.Claimed? && PlacedBefore(StepSys(s, Place(p)).value, id)
    ensures PlacedBefore(s, id) || Holds(s, p, id)
  {
    var c, placed := s.calls[p], StepSys(s, Place(p)).value.placed;
    assert placed == s.placed + SentBy(c.intents);
    var i :| 0 <= i < |placed| && placed[i].clientOrderId == id;
    if i < |s.placed| {
      assert s.placed[i].clientOrderId == id;
    } else {
      assert Ids(c.intents)[i - |s.placed|] == id;
    }
  }

  lemma {:induction false} AllPlacedOk(t: Table, placed: seq<Sent>, more: seq<Sent>)
    requires forall i | 0 <= i < |placed| :: PlacedOk(t, placed[i])
    requires forall x <- more :: PlacedOk(t, x)
    ensures forall i | 0 <= i < |placed + more| :: PlacedOk(t, (placed + more)[i])
  {
  }

  lemma {:induction false} PlaceStep(s: Sys, p: nat)
    requires Inv(s) && p in s.calls && s.calls[p].pc.Claimed?
    ensures Inv(StepSys(s, Place(p)).value)
  {
    var s' := StepSys(s, Place(p)).value;
    PlacedRows(s, p);
    PlacedStayOnce(s, p);
    AllPlacedOk(s.orders, s.placed, SentBy(s.calls[p].intents));
    forall id | PlacedBefore(s', id) ensures PlacedBefore(s, id) || Holds(s, p, id) { PlacedOrHeld(s, p, id); }
    assert forall q, id | Holds(s', q, id) :: Holds(s, q, id) && q != p;
  }

  lemma {:induction false} RowWrite(t: Table, id: string, r: Option<Row>)
    requires Keyed(t) && id in t && (r.Some? ==> RowMoves(t[id], r.value))
    ensures Keyed(RowOr(t, id, r)) && TableMoves(t, RowOr(t, id, r))
  {
  }

  lemma {:induction false} OpenStep(s: Sys, p: nat, expected: Option<int>)
    requires Inv(s) && StepSys(s, Open(p, expected)).Some?
    ensures Inv(StepSys(s, Open(p, expected)).value)
  {
    var c := s.calls[p];
    var intent := c.intents[c.pc.next];
    var s' := StepSys(s, Open(p, expected)).value;
    CreationKeepsRows(s.orders, intent, expected);
    assert TableMoves(s.orders, s'.orders);
    CallOkMoves(s.orders, s'.orders, c);
    QuietStep(s, s', p);
  }

  /** A loop step of a call that writes (at most) the row of its current member. */
  lemma {:induction false} MemberStep(s: Sys, p: nat, written: Option<Row>, pc: Pc)
    requires Inv(s) && p in s.calls && !pc.Claimed? && !pc.Opening?
    requires var c := s.calls[p];
      && (c.pc.Rejecting? || c.pc.Authorizing? || c.pc.Recording?) && c.pc.next < |c.intents|
      && (written.Some? ==> var id := c.intents[c.pc.next].clientOrderId;
                            id in s.orders && RowMoves(s.orders[id], written.value))
    ensures var c := s.calls[p];
      && c.intents[c.pc.next].clientOrderId in s.orders
      && Inv(With(s, RowOr(s.orders, c.intents[c.pc.next].clientOrderId, written), p, At(c, pc)))
  {
    var c := s.calls[p];
    var id := c.intents[c.pc.next].clientOrderId;
    assert CallOk(s.orders, c) && Persisted(s.orders, c.intents[c.pc.next]);
    RowWrite(s.orders, id, written);
    CallOkMoves(s.orders, RowOr(s.orders, id, written), c);
    QuietStep(s, With(s, RowOr(s.orders, id, written), p, At(c, pc)), p);
  }

  lemma {:induction false} RejectStep(s: Sys, p: nat, decision: string, reason: Note)
    requires Inv(s) && StepSys(s, Reject(p, decision, reason)).Some?
    ensures Inv(StepSys(s, Reject(p, decision, reason)).value)
  {
    var c := s.calls[p];
    MemberStep(s, p, None, Done);
    var moved := Transition(s.orders[c.intents[c.pc.next].clientOrderId], RiskRejected, None, Some(decision), Some(reason));
    MemberStep(s, p, moved, if moved.Some? then Rejecting(c.pc.next + 1) else Done);
  }

  lemma {:induction false} AuthorizeStep(s: Sys, p: nat, decision: string)
    requires Inv(s) && StepSys(s, Authorize(p, decision)).Some?
    ensures Inv(StepSys(s, Authorize(p, decision)).value)
  {
    var c := s.calls[p];
    MemberStep(s, p, None, Authorizing(c.pc.next + 1));
    if c.seen[c.pc.next] == IntentPersisted {
      var r := s.orders[c.intents[c.pc.next].clientOrderId];
      FreshOnlyLeaves(r, DoTransition(Authorized, None, Some(decision), None));
      var moved := Transition(r, Authorized, None, Some(decision), None);
      MemberStep(s, p, moved, if moved.Some? then Authorizing(c.pc.next + 1) else Done);
    }
  }

  lemma {:induction false} AnswerStep(s: Sys, p: nat, st: Status)
    requires Inv(s) && StepSys(s, Record(p, Some(st))).Some?
    ensures Inv(StepSys(s, Record(p, Some(st))).value)
  {
    var c := s.calls[p];
    MemberKnown(s, p);
    var r := s.orders[c.intents[c.pc.next].clientOrderId];
    var target := if !c.linked && c.intents[c.pc.next].request.whatIf then Validated else LifecycleFromStatus(st);
    FreshOnlyLeaves(r, DoApplyStatus(target, st, false));
    MemberStep(s, p, StepRow(r, DoApplyStatus(target, st, false)), Recording(c.pc.next + 1));
  }

  lemma {:induction false} SilenceStep(s: Sys, p: nat)
    requires Inv(s) && StepSys(s, Record(p, None)).Some?
    ensures Inv(StepSys(s, Record(p, None)).value)
  {
    var c := s.calls[p];
    MemberKnown(s, p);
    var r := s.orders[c.intents[c.pc.next].clientOrderId];
    var marked := if Terminal(r.state) then None
                  else Transition(r, Unknown, None, None, Some(Reason("submission outcome unknown")));
    MemberStep(s, p, marked, Recording(c.pc.next + 1));
  }

  lemma {:induction false} MemberKnown(s: Sys, p: nat)
    requires Inv(s) && p in s.calls && s.calls[p].pc.Recording? && s.calls[p].pc.next < |s.calls[p].intents|
    ensures s.calls[p].intents[s.calls[p].pc.next].clientOrderId in s.orders
  {
    assert CallOk(s.orders, s.calls[p]) && Persisted(s.orders, s.calls[p].intents[s.calls[p].pc.next]);
  }

  lemma {:induction false} RecordStep(s: Sys, p: nat, answer: Option<Status>)
    requires Inv(s) && StepSys(s, Record(p, answer)).Some?
    ensures Inv(StepSys(s, Record(p, answer)).value)
  {
    match answer
    case Some(st) => AnswerStep(s, p, st);
    case None => SilenceStep(s, p);
  }

  lemma {:induction false} FreshOnlyLeaves(r: Row, step: Step)
    requires Reported(step)
    ensures StepRow(r, step).Some? ==> RowMoves(r, StepRow(r, step).value)
  {
    if StepRow(r, step).Some? { FreshNeverReentered(r, step, StepRow(r, step).value); }
  }

  lemma {:induction false} StepKeepsInv(s: Sys, a: Action)
    requires Inv(s) && StepSys(s, a).Some?
    ensures Inv(StepSys(s, a).value)
  {
    match a
    case Open(p, expected) => OpenStep(s, p, expected);
    case Place(p) => PlaceStep(s, p);
    case Claim(p, attempt, now) => ClaimAction(s, p, attempt, now);
    case Elsewhere(id, step) => ElsewhereAction(s, id, step);
    case Reject(p, decision, reason) => RejectStep(s, p, decision, reason);
    case Authorize(p, decision) => AuthorizeStep(s, p, decision);
    case Record(p, answer) => RecordStep(s, p, answer);
    case _ => QuietAction(s, a);
  }

  lemma {:induction false} ClaimAction(s: Sys, p: nat, attempt: string, now: int)
    requires Inv(s) && StepSys(s, Claim(p, attempt, now)).Some?
    ensures Inv(StepSys(s, Claim(p, attempt, now)).value)
  {
    if ClaimGroup(s.orders, Ids(s.calls[p].intents), attempt, now).1 == Ok(true) {
      ClaimStep(s, p, attempt, now);
    } else {
      QuietStep(s, StepSys(s, Claim(p, attempt, now)).value, p);
    }
  }

  lemma {:induction false} ElsewhereAction(s: Sys, id: string, step: Step)
    requires Inv(s) && StepSys(s, Elsewhere(id, step)).Some?
    ensures Inv(StepSys(s, Elsewhere(id, step)).value)
  {
    FreshOnlyLeaves(s.orders[id], step);
    RowWrite(s.orders, id, StepRow(s.orders[id], step));
    ElsewhereStep(s, StepSys(s, Elsewhere(id, step)).value);
  }

  /** Steps that write no order row. */
  lemma {:induction false} QuietAction(s: Sys, a: Action)
    requires a.Begin? || a.Decide? || a.Fail? || a.Crash?
    requires Inv(s) && StepSys(s, a).Some?
    ensures Inv(StepSys(s, a).value)
  {
    if a.Decide? { assert CallOk(s.orders, s.calls[a.p]); }
    QuietStep(s, StepSys(s, a).value, a.p);
  }

  lemma {:induction false} ElsewhereStep(s: Sys, s': Sys)
    requires Inv(s) && Keyed(s'.orders) && TableMoves(s.orders, s'.orders)
    requires s'.placed == s.placed && s'.calls == s.calls
    ensures Inv(s')
  {
    forall q <- s'.calls ensures CallOk(s'.orders, s'.calls[q]) { CallOkMoves(s.orders, s'.orders, s.calls[q]); }
    forall i | 0 <= i < |s'.placed| ensures PlacedOk(s'.orders, s'.placed[i]) {
      assert PlacedOk(s.orders, s.placed[i]);
      assert RowMoves(s.orders[s.placed[i].clientOrderId], s'.orders[s.placed[i].clientOrderId]);
    }
    assert forall q, id | Holds(s', q, id) :: Holds(s, q, id);
    assert forall id | PlacedBefore(s', id) :: PlacedBefore(s, id);
  }

  // ----------------------------------------------------------------- the theorems

  ghost predicate Execution(states: seq<Sys>, actions: seq<Action>) {
    && |states| == |actions| + 1
    && states[0] == Sys(map[], map[], [])
    && forall i | 0 <= i < |actions| :: StepSys(states[i], actions[i]) == Some(states[i + 1])
  }

  lemma {:induction false} Reachable(states: seq<Sys>, actions: seq<Action>, i: nat)
    requires Execution(states, actions) && i < |states|
    ensures Inv(states[i])
  {
    if i > 0 {
      Reachable(states, actions, i - 1);
      assert StepSys(states[i - 1], actions[i - 1]) == Some(states[i]);
      StepKeepsInv(states[i - 1], actions[i - 1]);
    }
  }

  /** Every order is placed at most once, and only with the payload first persisted for it. */
  lemma {:induction false} AtMostOncePlacement(states: seq<Sys>, actions: seq<Action>, i: nat)
    requires Execution(states, actions) && i < |states|
    ensures PlacedOnce(states[i].placed)
    ensures forall k | 0 <= k < |states[i].placed| ::
      var x := states[i].placed[k];
      x.clientOrderId in states[i].orders && states[i].orders[x.clientOrderId].id.intentHash.request == x.request
  {
    Reachable(states, actions, i);
    assert forall k | 0 <= k < |states[i].placed| :: PlacedOk(states[i].orders, states[i].placed[k]);
  }

  /** The payload persisted first under an id stays the payload of that id. */
  lemma {:induction false} FirstPayloadIsForever(states: seq<Sys>, actions: seq<Action>, i: nat, j: nat, id: string)
    requires Execution(states, actions) && i <= j < |states| && id in states[i].orders
    ensures id in states[j].orders && states[j].orders[id].id == states[i].orders[id].id
    ensures !Fresh(states[i].orders[id].state) ==> !Fresh(states[j].orders[id].state)
    decreases j - i
  {
    if i < j {
      Reachable(states, actions, i);
      assert StepSys(states[i], actions[i]) == Some(states[i + 1]);
      StepMovesRows(states[i], actions[i], id);
      FirstPayloadIsForever(states, actions, i + 1, j, id);
    }
  }

  /** The risk verdict authorizes or rejects a row, and re-enters neither fresh state. */
  lemma {:induction false} VerdictMoves(r: Row, target: State, decision: string, reason: Option<Note>)
    requires target == Authorized || target == RiskRejected
    ensures var moved := Transition(r, target, None, Some(decision), reason); moved.Some? ==> RowMoves(r, moved.value)
  {
  }

  lemma {:induction false} RowOrMoves(t: Table, key: string, r: Option<Row>, id: string)
    requires id in t && (key in t && r.Some? ==> RowMoves(t[key], r.value))
    ensures id in RowOr(t, key, r) && RowMoves(t[id], RowOr(t, key, r)[id])
  {
  }

  lemma {:induction false} AuthorizeMovesRows(s: Sys, a: Action, id: string)
    requires a.Authorize? && StepSys(s, a).Some? && id in s.orders
    ensures id in StepSys(s, a).value.orders && RowMoves(s.orders[id], StepSys(s, a).value.orders[id])
  {
    var c := s.calls[a.p];
    var key := c.intents[c.pc.next].clientOrderId;
    if key in s.orders {
      VerdictMoves(s.orders[key], Authorized, a.decision, None);
      RowOrMoves(s.orders, key, Transition(s.orders[key], Authorized, None, Some(a.decision), None), id);
    }
  }

  lemma {:induction false} RejectMovesRows(s: Sys, a: Action, id: string)
    requires a.Reject? && StepSys(s, a).Some? && id in s.orders
    ensures id in StepSys(s, a).value.orders && RowMoves(s.orders[id], StepSys(s, a).value.orders[id])
  {
    var c := s.calls[a.p];
    var key := c.intents[c.pc.next].clientOrderId;
    if key in s.orders {
      VerdictMoves(s.orders[key], RiskRejected, a.decision, Some(a.reason));
      RowOrMoves(s.orders, key, Transition(s.orders[key], RiskRejected, None, Some(a.decision), Some(a.reason)), id);
    }
  }

  lemma {:induction false} OpenMovesRows(s: Sys, a: Action, id: string)
    requires a.Open? && Inv(s) && StepSys(s, a).Some? && id in s.orders
    ensures id in StepSys(s, a).value.orders && RowMoves(s.orders[id], StepSys(s, a).value.orders[id])
  {
    CreationKeepsRows(s.orders, s.calls[a.p].intents[s.calls[a.p].pc.next], a.expected);
  }

  lemma {:induction false} ClaimMovesRows(s: Sys, a: Action, id: string)
    requires a.Claim? && StepSys(s, a).Some? && id in s.orders
    ensures id in StepSys(s, a).value.orders && RowMoves(s.orders[id], StepSys(s, a).value.orders[id])
  {
    var ids := Ids(s.calls[a.p].intents);
    if ids != [] && Distinct(ids) { GroupClaimIsAtomic(s.orders, ids, a.attempt, a.now); }
  }

  lemma {:induction false} ElsewhereMovesRows(s: Sys, a: Action, id: string)
    requires a.Elsewhere? && StepSys(s, a).Some? && id in s.orders
    ensures id in StepSys(s, a).value.orders && RowMoves(s.orders[id], StepSys(s, a).value.orders[id])
  {
    FreshOnlyLeaves(s.orders[a.id], a.step);
  }

  lemma {:induction false} StepMovesRows(s: Sys, a: Action, id: string)
    requires Inv(s) && StepSys(s, a).Some? && id in s.orders
    ensures id in StepSys(s, a).value.orders && RowMoves(s.orders[id], StepSys(s, a).value.orders[id])
  {
    match a
    case Open(_, _) => OpenMovesRows(s, a, id);
    case Record(p, answer) => RecordMovesRows(s, p, answer, id);
    case Elsewhere(_, _) => ElsewhereMovesRows(s, a, id);
    case Claim(_, _, _) => ClaimMovesRows(s, a, id);
    case Authorize(_, _) => AuthorizeMovesRows(s, a, id);
    case Reject(_, _, _) => RejectMovesRows(s, a, id);
    case _ =>
  }

  lemma {:induction false} RecordMovesRows(s: Sys, p: nat, answer: Option<Status>, id: string)
    requires StepSys(s, Record(p, answer)).Some? && id in s.orders
    ensures var t := StepSys(s, Record(p, answer)).value.orders; id in t && RowMoves(s.orders[id], t[id])
  {
    var c := s.calls[p];
    var key := c.intents[c.pc.next].clientOrderId;
    if key in s.orders && answer.Some? {
      var target := if !c.linked && c.intents[c.pc.next].request.whatIf then Validated
                    else LifecycleFromStatus(answer.value);
      FreshOnlyLeaves(s.orders[key], DoApplyStatus(target, answer.value, false));
    }
  }
}
