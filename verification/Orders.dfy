/**
 Order rows and the pure part of the ledger: what one database transaction does
 to one row.  Every function that "returns a row" is the whole effect of one
 transaction; `None`/`Err` is a transaction that touched nothing.
 */
module Orders {
  import opened Wrappers

  // ---------------------------------------------------------------- lifecycle

  datatype State =
    | IntentPersisted | RiskRejected | Authorized | Submitting | Acknowledged
    | PartialFill | Filled | CancelPending | ReplacePending | Cancelled
    | Rejected | Expired | Validated | Unknown

  predicate Terminal(s: State) {
    s == RiskRejected || s == Filled || s == Cancelled || s == Rejected || s == Expired || s == Validated
  }

  /** Not yet offered to the broker. */
  predicate Fresh(s: State) { s == IntentPersisted || s == Authorized }

  /** The targets `transition` accepts from each state, other than the state itself. */
  function AllowedTargets(s: State): set<State> {
    match s
    case IntentPersisted => {RiskRejected, Authorized, Unknown, Expired}
    case Authorized => {Submitting, RiskRejected, Unknown, Expired}
    case Submitting =>
      {Acknowledged, PartialFill, Filled, CancelPending, Cancelled, Rejected, Unknown, Expired, Validated}
    case Acknowledged =>
      {PartialFill, Filled, CancelPending, Cancelled, Rejected, Unknown, Expired, ReplacePending}
    case PartialFill =>
      {PartialFill, Filled, CancelPending, Cancelled, Unknown, Expired, ReplacePending}
    case CancelPending => {PartialFill, Filled, Cancelled, Unknown, Expired}
    case ReplacePending =>
      {Acknowledged, PartialFill, Filled, CancelPending, Cancelled, Rejected, Unknown}
    case Unknown =>
      {Acknowledged, PartialFill, Filled, CancelPending, Cancelled, Rejected, Expired}
    case _ => {}
  }

  /** Position on the working ladder; states off the ladder have no rank. */
  function Rank(s: State): Option<nat> {
    match s
    case IntentPersisted => Some(0)
    case Authorized => Some(1)
    case Submitting => Some(2)
    case Acknowledged => Some(3)
    case PartialFill => Some(4)
    case CancelPending => Some(5)
    case _ => None
  }

  /** Would moving from `current` to `target` step back down the ladder? */
  predicate Regression(current: State, target: State) {
    if current == target || current == Unknown then false
    else if target == Unknown then true
    else Rank(target).Some? && Rank(current).Some? && Rank(target).value < Rank(current).value
  }

  // ------------------------------------------------------- requests and intents

  datatype Side = Buy | Sell

  function Signed(side: Side, amount: real): real { if side == Buy then amount else -amount }

  datatype OrderType = Mkt | Lmt | Stp | StpLmt
  datatype Tif = Day | Gtc | Gtd | Ioc | Fok
  datatype AssetType = Equity | Etf | OptionContract | Combo

  /** A combo leg as stored in instrument metadata; malformed fields are `None`. */
  datatype RawLeg = RawLeg(conid: Option<int>, ratio: Option<real>, action: Option<Side>)

  datatype Right = CallRight | PutRight

  datatype Instrument = Instrument(
    assetType: AssetType,
    symbol: string,
    currency: string,
    venue: Option<string>,
    conid: Option<int>,
    right: Option<Right>,
    strike: Option<real>,
    expiry: Option<int>,
    multiplier: Option<real>,
    maxLossPerUnit: Option<real>,
    comboLegs: seq<RawLeg>
  )

  datatype Request = Request(
    instrument: Instrument,
    side: Side,
    quantity: real,
    orderType: OrderType,
    limitPrice: Option<real>,
    stopPrice: Option<real>,
    tif: Tif,
    account: string,
    orderRef: string,
    transmit: bool,
    whatIf: bool,
    outsideRth: bool,
    goodAfter: Option<int>,
    goodTill: Option<int>,
    ocaGroup: Option<string>,
    ocaType: Option<int>,
    reduceOnly: bool
  )

  datatype Intent = Intent(
    clientOrderId: string,
    strategyCode: string,
    request: Request,
    expiresAt: Option<int>,
    metadata: map<string, string>
  )

  /** The caller-controlled payload that is hashed; the digest is taken to be injective. */
  datatype OrderHash = OrderHash(
    strategyCode: string, request: Request, expiresAt: Option<int>, metadata: map<string, string>)

  function HashOf(intent: Intent): OrderHash {
    OrderHash(intent.strategyCode, intent.request, intent.expiresAt, intent.metadata)
  }

  /** What `replace` refuses to change. */
  datatype FixedTerms = FixedTerms(
    instrument: Instrument, side: Side, orderType: OrderType, transmit: bool, whatIf: bool,
    ocaGroup: Option<string>, ocaType: Option<int>, reduceOnly: bool)

  function FixedTermsOf(q: Request): FixedTerms {
    FixedTerms(q.instrument, q.side, q.orderType, q.transmit, q.whatIf, q.ocaGroup, q.ocaType, q.reduceOnly)
  }

  // ------------------------------------------------------------ broker statuses

  /** The broker's status word, spaces removed and upper-cased. */
  datatype WireStatus =
    | WFilled | WCancelled | WApiCancelled | WPendingCancel | WInactive | WRejected
    | WPendingSubmit | WApiPending | WPreSubmitted | WSubmitted | WOther(text: string)

  datatype Status = Status(
    orderId: int,
    word: WireStatus,
    instrument: Option<Instrument>,
    account: Option<string>,
    side: Option<Side>,
    orderType: Option<OrderType>,
    quantity: Option<real>,
    limitPrice: Option<real>,
    stopPrice: Option<real>,
    tif: Option<Tif>,
    filled: real,
    remaining: real,
    avgFillPrice: real,
    permanentId: Option<int>,
    clientId: Option<int>,
    parentId: Option<int>,
    orderRef: Option<string>,
    updatedAt: int
  )

  function LifecycleFromStatus(st: Status): (s: State)
    ensures !Fresh(s) && s != ReplacePending
  {
    if st.quantity.Some? && st.filled >= st.quantity.value then Filled
    else if st.filled > 0.0 && st.remaining > 0.0 then PartialFill
    else match st.word
      case WFilled => Filled
      case WCancelled => Cancelled
      case WApiCancelled => Cancelled
      case WPendingCancel => CancelPending
      case WInactive => Rejected
      case WRejected => Rejected
      case WPendingSubmit => Submitting
      case WApiPending => Submitting
      case WPreSubmitted => Acknowledged
      case WSubmitted => Acknowledged
      case WOther(_) => Unknown
  }

  predicate ClosingWord(w: WireStatus) {
    w == WFilled || w == WCancelled || w == WApiCancelled || w == WInactive || w == WRejected
  }

  /**
   Quantities outrank words.  A status closes an order exactly when the whole quantity is filled,
   or when the word closes it and it is not partly filled: a cancellation that reports both a
   filled and a remaining part leaves the order a partial fill.
   */
  lemma {:induction false} StatusClosesIff(st: Status)
    ensures var complete := st.quantity.Some? && st.filled >= st.quantity.value;
      var partial := st.filled > 0.0 && st.remaining > 0.0;
      && (Terminal(LifecycleFromStatus(st)) <==> complete || (!partial && ClosingWord(st.word)))
      && (LifecycleFromStatus(st) == Filled <==> complete || (!partial && st.word == WFilled))
      && (LifecycleFromStatus(st) == Cancelled <==>
            !complete && !partial && (st.word == WCancelled || st.word == WApiCancelled))
      && (LifecycleFromStatus(st) == PartialFill <==> !complete && partial)
  {
  }

  /** Does the broker report exactly the terms of `q`?  Missing terms never match. */
  predicate Echoes(st: Status, q: Request) {
    && st.quantity == Some(q.quantity)
    && st.side == Some(q.side)
    && st.orderType == Some(q.orderType)
    && st.tif == Some(q.tif)
    && st.limitPrice == q.limitPrice
    && st.stopPrice == q.stopPrice
    && (st.instrument.Some? ==>
          var i := st.instrument.value;
          && (i.conid.Some? && q.instrument.conid.Some? ==> i.conid == q.instrument.conid)
          && i.symbol == q.instrument.symbol
          && i.currency == q.instrument.currency)
  }

  // ----------------------------------------------------------------------- rows

  /** Values of the `last_error` column. */
  datatype Note =
    | Reason(text: string)
    | PriorTermsConfirmed
    | TermsMismatch
    | TerminalConflict(local: State, broker: State)
    | TtlElapsed(at: int)

  /** Columns written at insertion and never again. */
  datatype Identity = Identity(
    clientOrderId: string, intentHash: OrderHash, account: string, strategyCode: string,
    assetType: AssetType, orderRef: string, side: Side, orderType: OrderType,
    ocaGroup: Option<string>, ocaType: Option<int>, expiresAt: Option<int>)

  /** Columns that repeat replaceable parts of `request_payload`. */
  datatype Columns = Columns(
    quantity: real, limitPrice: Option<real>, stopPrice: Option<real>, tif: Tif, transmit: bool,
    whatIf: bool, outsideRth: bool, goodAfter: Option<int>, goodTill: Option<int>, reduceOnly: bool)

  function ColumnsOf(q: Request): Columns {
    Columns(q.quantity, q.limitPrice, q.stopPrice, q.tif, q.transmit, q.whatIf, q.outsideRth,
            q.goodAfter, q.goodTill, q.reduceOnly)
  }

  datatype Links = Links(
    orderId: Option<int>, clientId: Option<int>, permanentId: Option<int>, parentId: Option<int>)

  datatype Progress = Progress(filled: real, remaining: real, avgFillPrice: real)

  /** Bookkeeping that no command depends on. */
  datatype Journal = Journal(
    wireStatus: Option<WireStatus>, riskDecision: Option<string>, attempt: Option<string>,
    submissionStarted: Option<int>)

  datatype Row = Row(
    id: Identity,
    hash: OrderHash,
    request: Request,
    columns: Columns,
    pendingHash: Option<OrderHash>,
    pendingRequest: Option<Request>,
    state: State,
    links: Links,
    progress: Progress,
    lastError: Option<Note>,
    journal: Journal,
    revision: nat
  )

  function NewRow(intent: Intent, brokerClientId: Option<int>): Row {
    var q := intent.request;
    Row(Identity(intent.clientOrderId, HashOf(intent), q.account, intent.strategyCode,
                 q.instrument.assetType, q.orderRef, q.side, q.orderType, q.ocaGroup, q.ocaType,
                 intent.expiresAt),
        HashOf(intent), q, ColumnsOf(q), None, None,
        IntentPersisted, Links(None, brokerClientId, None, None), Progress(0.0, q.quantity, 0.0), None,
        Journal(None, None, None, None), 1)
  }

  /** The fields whose change must invalidate a caller's optimistic revision. */
  datatype Stamped = Stamped(
    state: State, links: Links, progress: Progress, hash: OrderHash, request: Request,
    pendingHash: Option<OrderHash>, pendingRequest: Option<Request>, lastError: Option<Note>)

  function StampedOf(r: Row): Stamped {
    Stamped(r.state, r.links, r.progress, r.hash, r.request, r.pendingHash, r.pendingRequest, r.lastError)
  }

  /** `pending_request_hash` and `pending_request_payload` are set and cleared together. */
  predicate PendingPaired(r: Row) {
    r.pendingHash.Some? <==> r.pendingRequest.Some?
  }

  // --------------------------------------------- one transaction on one row

  function WithStatus(r: Row, st: Status): Row {
    r.(links := Links(Some(st.orderId), st.clientId, st.permanentId, st.parentId),
       progress := Progress(st.filled, st.remaining, st.avgFillPrice),
       journal := r.journal.(wireStatus := Some(st.word)))
  }

  predicate TransitionAllowed(current: State, target: State) {
    current == target || (!Terminal(current) && target in AllowedTargets(current))
  }

  function Transition(
    r: Row, target: State, reported: Option<Status>, decision: Option<string>, reason: Option<Note>): Option<Row>
  {
    if !TransitionAllowed(r.state, target) then None
    else
      var moved := r.(state := target, revision := r.revision + 1,
                      journal := if decision.Some? then r.journal.(riskDecision := decision) else r.journal,
                      lastError := if reason.Some? then reason else r.lastError);
      Some(if reported.Some? then WithStatus(moved, reported.value) else moved)
  }

  function Started(j: Journal, attempt: string, now: int): Journal {
    j.(attempt := Some(attempt), submissionStarted := Some(now))
  }

  function ClaimSubmission(r: Row, attempt: string, now: int): Option<Row> {
    if r.state != Authorized then None
    else Some(r.(state := Submitting, journal := Started(r.journal, attempt, now), revision := r.revision + 1))
  }

  function ClaimReplacement(
    r: Row, expected: nat, q: Request, hash: OrderHash, riskId: string, attempt: string, now: int): Option<Row>
  {
    if r.revision != expected || !(r.state == Acknowledged || r.state == PartialFill)
       || r.progress.filled > q.quantity
    then None
    else Some(r.(state := ReplacePending, pendingHash := Some(hash), pendingRequest := Some(q),
                 journal := Started(r.journal, attempt, now).(riskDecision := Some(riskId)),
                 revision := r.revision + 1))
  }

  predicate Cancellable(s: State) {
    s == Submitting || s == Acknowledged || s == PartialFill || s == ReplacePending || s == Unknown
  }

  function ClaimCancellation(r: Row, expected: nat, attempt: string, now: int): Option<Row> {
    if r.revision != expected || !Cancellable(r.state) || r.links.orderId.None? then None
    else Some(r.(state := CancelPending, journal := Started(r.journal, attempt, now), revision := r.revision + 1))
  }

  function Max(a: real, b: real): real { if a < b then b else a }
  function Min(a: real, b: real): real { if a < b then a else b }

  /** The pending replacement becomes the confirmed order. */
  function Promote(r: Row): Row
    requires r.pendingHash.Some? && r.pendingRequest.Some?
  {
    var q := r.pendingRequest.value;
    r.(hash := r.pendingHash.value, request := q, columns := ColumnsOf(q),
       progress := r.progress.(remaining := Max(0.0, q.quantity - r.progress.filled)),
       pendingHash := None, pendingRequest := None)
  }

  /** What a status says about a pending replacement. */
  datatype Settlement = NothingPending | Promoted | Reverted | Mismatch | StillPending

  function Settle(r: Row, st: Status, settle: bool): Settlement {
    if r.pendingRequest.None? then NothingPending
    else if Echoes(st, r.pendingRequest.value) then Promoted
    else if !settle then StillPending
    else if Echoes(st, r.request) then Reverted
    else Mismatch
  }

  /** The lifecycle state after a status, given what became of the replacement. */
  function StateAfter(current: State, target: State, how: Settlement): State {
    if Terminal(current) then current
    else if how == Mismatch then Unknown
    else if current == ReplacePending && how == StillPending && !Terminal(target) then current
    else if Regression(current, target) then current
    else target
  }

  function SettledRow(r: Row, how: Settlement): Row
    requires PendingPaired(r)
    requires how == Promoted ==> r.pendingRequest.Some?
  {
    match how
    case Promoted => Promote(r)
    case Reverted => r.(pendingHash := None, pendingRequest := None, lastError := Some(PriorTermsConfirmed))
    case Mismatch => r.(lastError := Some(TermsMismatch))
    case _ => r
  }

  /** State, error note and pending slot once the replacement has been looked at. */
  function MovedRow(r: Row, target: State, how: Settlement): Row {
    var conflict := how != Mismatch && Terminal(r.state) && r.state != target;
    r.(state := StateAfter(r.state, target, how),
       lastError := if conflict then Some(TerminalConflict(r.state, target)) else r.lastError,
       pendingHash := if Terminal(target) then None else r.pendingHash,
       pendingRequest := if Terminal(target) then None else r.pendingRequest)
  }

  /** The row after a broker-authoritative status, before its revision is decided. */
  function StatusEffect(r: Row, target: State, st: Status, settle: bool): Row
    requires PendingPaired(r)
  {
    var how := Settle(r, st, settle);
    WithStatus(MovedRow(SettledRow(r, how), target, how), st)
  }

  function ApplyStatus(r: Row, target: State, st: Status, settle: bool): (r': Row)
    requires PendingPaired(r)
    ensures PendingPaired(r') && r'.id == r.id && r'.state == StateAfter(r.state, target, Settle(r, st, settle))
  {
    var after := StatusEffect(r, target, st, settle);
    if StampedOf(after) == StampedOf(r) then after else after.(revision := r.revision + 1)
  }

  function MarkExpired(r: Row, at: int): Option<Row> {
    if r.state != Cancelled then None
    else Some(r.(state := Expired, lastError := Some(TtlElapsed(at)), revision := r.revision + 1))
  }

  /** The fill columns after the live executions of an order have been summed again. */
  function Refilled(r: Row, corrects: bool, liveQuantity: real, liveValue: real): Progress {
    var p := r.progress;
    if !corrects && liveQuantity < p.filled then p
    else
      var filled := Min(r.columns.quantity, liveQuantity);
      Progress(filled, Max(0.0, r.columns.quantity - filled),
               if liveQuantity > 0.0 then liveValue / liveQuantity else p.avgFillPrice)
  }

  /** What a first-delivered execution does to the order it is linked to. */
  function ApplyFill(r: Row, corrects: bool, liveQuantity: real, liveValue: real): Row {
    var p := Refilled(r, corrects, liveQuantity, liveValue);
    var state :=
      if p.remaining == 0.0 && p.filled > 0.0 then Filled
      else if p.filled > 0.0 && !Terminal(r.state) then PartialFill
      else r.state;
    r.(progress := p, state := state, revision := r.revision + 1)
  }

  /** The one-off binding of a row that was persisted without a broker client id. */
  function BindClient(r: Row, expected: Option<int>): Row {
    if expected.Some? && r.links.clientId.None? && Fresh(r.state)
    then r.(links := r.links.(clientId := expected))
    else r
  }
}
