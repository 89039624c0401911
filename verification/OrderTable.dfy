/** The order table: idempotent creation, group claims and broker identity matching. */
module OrderTable {
  import opened Wrappers
  import opened Orders

  type Table = map<string, Row>

  /** `client_order_id` is the key of its row. */
  ghost predicate Keyed(t: Table) {
    forall id <- t :: t[id].id.clientOrderId == id
  }

  // ------------------------------------------------------------------- creation

  datatype LedgerError =
    | MissingAccount | IdempotencyConflict | ForeignClient | UnknownOrder | InvalidTransition
    | InvalidGroup | IncompletePending

  datatype Created = Created(row: Row, replay: bool)

  /** `create_or_get_intent`: the row of the intent, inserted unless it is already there. */
  function CreateOrGet(t: Table, intent: Intent, expected: Option<int>): (Table, Result<Created, LedgerError>) {
    var key := intent.clientOrderId;
    if intent.request.account == "" then (t, Err(MissingAccount))
    else if key !in t then
      var row := NewRow(intent, expected);
      (t[key := row], Ok(Created(row, false)))
    else if t[key].id.intentHash != HashOf(intent) then (t, Err(IdempotencyConflict))
    else if expected.Some? && t[key].links.clientId.Some? && t[key].links.clientId != expected then
      (t, Err(ForeignClient))
    else
      var row := BindClient(t[key], expected);
      (t[key := row], Ok(Created(row, true)))
  }

  lemma {:induction false} CreationKeepsRows(t: Table, intent: Intent, expected: Option<int>)
    requires Keyed(t)
    ensures var t' := CreateOrGet(t, intent, expected).0;
      && Keyed(t')
      && forall id <- t :: id in t' && t'[id].id == t[id].id && t'[id].state == t[id].state
                           && (t'[id] == t[id] || t'[id] == BindClient(t[id], expected))
  {
  }

  /** One id never stands for two payloads: a retry replays the first row or is refused. */
  lemma {:induction false} RetryReplaysOrIsRefused(t: Table, a: Intent, b: Intent, ea: Option<int>, eb: Option<int>)
    requires a.clientOrderId == b.clientOrderId && b.request.account != ""
    requires CreateOrGet(t, a, ea).1.Ok?
    ensures var (t1, first) := CreateOrGet(t, a, ea); var (t2, second) := CreateOrGet(t1, b, eb);
      && t1[a.clientOrderId].id.intentHash == HashOf(a)
      && (second.Ok? ==> second.value.replay && HashOf(b) == HashOf(a) && second.value.row.id == first.value.row.id)
      && (HashOf(b) != HashOf(a) ==> t2 == t1 && second == Err(IdempotencyConflict))
  {
  }

  // ---------------------------------------------------------------- group claim

  predicate Distinct(ids: seq<string>) {
    forall i, j | 0 <= i < j < |ids| :: ids[i] != ids[j]
  }

  predicate AllAuthorized(t: Table, ids: seq<string>) {
    forall id <- ids :: id in t && t[id].state == Authorized
  }

  /** `claim_submission_group`: every member moves, or none does. */
  function ClaimGroup(t: Table, ids: seq<string>, attempt: string, now: int): (Table, Result<bool, LedgerError>) {
    if ids == [] || !Distinct(ids) then (t, Err(InvalidGroup))
    else if !AllAuthorized(t, ids) then (t, Ok(false))
    else (map id | id in t :: if id in ids then ClaimSubmission(t[id], attempt, now).value else t[id], Ok(true))
  }

  /** A group claim is all or nothing, and leaves every other row alone. */
  lemma {:induction false} GroupClaimIsAtomic(t: Table, ids: seq<string>, attempt: string, now: int)
    requires ids != [] && Distinct(ids)
    ensures var (t', won) := ClaimGroup(t, ids, attempt, now);
      && (won == Ok(true) <==> AllAuthorized(t, ids))
      && t'.Keys == t.Keys
      && (won == Ok(true) ==> forall id <- t :: t'[id].state == (if id in ids then Submitting else t[id].state)
                                                && (id !in ids ==> t'[id] == t[id]))
      && (won != Ok(true) ==> t' == t)
  {
  }

  /** `claim_submission` is the group claim of one order. */
  lemma {:induction false} SingleClaim(t: Table, id: string, attempt: string, now: int)
    ensures var won := id in t && ClaimSubmission(t[id], attempt, now).Some?;
      ClaimGroup(t, [id], attempt, now)
        == (if won then t[id := ClaimSubmission(t[id], attempt, now).value] else t, Ok(won))
  {
    var ids := [id];
    assert Distinct(ids);
    if AllAuthorized(t, ids) {
      assert id in ids;
      assert ClaimGroup(t, ids, attempt, now).0 == t[id := ClaimSubmission(t[id], attempt, now).value];
    } else {
      assert !(id in t && t[id].state == Authorized);
    }
  }

  // ------------------------------------------------------------ broker identity

  /** The identifiers a broker message carries. */
  datatype BrokerKey = BrokerKey(
    account: Option<string>, orderId: Option<int>, clientId: Option<int>, permanentId: Option<int>,
    orderRef: Option<string>)

  predicate Nonempty(s: Option<string>) { s.Some? && s.value != "" }

  predicate Candidate(r: Row, k: BrokerKey) {
    || (k.permanentId.Some? && k.permanentId.value != 0 && r.links.permanentId == k.permanentId)
    || (k.orderId.Some? && r.links.orderId == k.orderId && (Nonempty(k.account) ==> r.id.account == k.account.value))
    || (Nonempty(k.orderRef)
        && (r.id.clientOrderId == k.orderRef.value || r.id.orderRef == k.orderRef.value)
        && (Nonempty(k.account) ==> r.id.account == k.account.value))
  }

  predicate Clash(a: Option<int>, b: Option<int>) { a.Some? && b.Some? && a != b }
  predicate Same(a: Option<int>, b: Option<int>) { a.Some? && a == b }

  predicate Compatible(r: Row, k: BrokerKey) {
    && (k.account.Some? ==> r.id.account == k.account.value)
    && !Clash(r.links.orderId, k.orderId)
    && !Clash(r.links.clientId, k.clientId)
    && !Clash(r.links.permanentId, k.permanentId)
    && (k.orderRef.Some? ==> r.id.orderRef == k.orderRef.value)
    && (|| (Same(r.links.orderId, k.orderId) && Same(r.links.clientId, k.clientId))
        || Same(r.links.permanentId, k.permanentId)
        || (k.orderRef.Some? && Same(r.links.clientId, k.clientId)))
  }

  function Matching(t: Table, k: BrokerKey): set<string> {
    set id | id in t && Candidate(t[id], k) && Compatible(t[id], k)
  }

  lemma {:induction false} SingletonMember(s: set<string>)
    requires |s| == 1
    ensures exists x :: s == {x}
  {
    var x :| x in s;
    assert |s - {x}| == 0;
    assert s == {x};
  }

  /** The one compatible row, or nothing when there is none or the message is ambiguous. */
  function MatchOrder(t: Table, k: BrokerKey): (found: Option<string>)
    ensures forall id :: found == Some(id) <==> Matching(t, k) == {id}
    ensures found.Some? ==> found.value in t && Compatible(t[found.value], k)
  {
    var s := Matching(t, k);
    if |s| == 1 then
      SingletonMember(s);
      var id :| id in s;
      assert s == {id};
      Some(id)
    else None
  }

  ghost predicate SameIdentities(t: Table, t': Table) {
    t.Keys == t'.Keys && forall id <- t :: t[id].id == t'[id].id && t[id].links == t'[id].links
  }

  /** Matching looks at identity columns and broker links only. */
  lemma {:induction false} MatchDependsOnIdentity(t: Table, t': Table, k: BrokerKey)
    requires SameIdentities(t, t')
    ensures MatchOrder(t, k) == MatchOrder(t', k)
  {
    assert Matching(t, k) == Matching(t', k);
    if MatchOrder(t, k).Some? { assert Matching(t', k) == {MatchOrder(t, k).value}; }
    if MatchOrder(t', k).Some? { assert Matching(t, k) == {MatchOrder(t', k).value}; }
  }

  /** The identifiers of a status about an order of this account. */
  function KeyOfReport(account: string, st: Status): BrokerKey {
    BrokerKey(Some(account), Some(st.orderId), st.clientId, st.permanentId, st.orderRef)
  }

  /** Once a status has been recorded, the row answers to it again: the next report finds the same order. */
  lemma {:induction false} ReportedOrderIsRecognised(r: Row, st: Status)
    requires st.orderRef.Some? ==> st.orderRef.value == r.id.orderRef
    ensures var k := KeyOfReport(r.id.account, st);
      && Candidate(WithStatus(r, st), k)
      && (Compatible(WithStatus(r, st), k) <==> st.clientId.Some? || st.permanentId.Some?)
  {
  }
}
