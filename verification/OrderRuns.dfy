/**
 Whole-run theorems about one order row.  A run is any sequence of committed
 ledger transactions on the row, in any order the callers choose.
 */
module OrderRuns {
  import opened Wrappers
  import opened Orders

  datatype Step =
    | DoTransition(target: State, reported: Option<Status>, decision: Option<string>, reason: Option<Note>)
    | DoClaimSubmission(attempt: string, now: int)
    | DoClaimReplacement(expected: nat, q: Request, hash: OrderHash, riskId: string, attempt: string, now: int)
    | DoClaimCancellation(expected: nat, attempt: string, now: int)
    | DoApplyStatus(target: State, st: Status, settle: bool)
    | DoApplyFill(corrects: bool, liveQuantity: real, liveValue: real)
    | DoMarkExpired(at: int)
    | DoBindClient(client: Option<int>)

  /** The committed effect of one transaction, `None` when it commits nothing. */
  function StepRow(r: Row, step: Step): Option<Row> {
    match step
    case DoTransition(target, reported, decision, reason) => Transition(r, target, reported, decision, reason)
    case DoClaimSubmission(attempt, now) => ClaimSubmission(r, attempt, now)
    case DoClaimReplacement(expected, q, hash, riskId, attempt, now) =>
      ClaimReplacement(r, expected, q, hash, riskId, attempt, now)
    case DoClaimCancellation(expected, attempt, now) => ClaimCancellation(r, expected, attempt, now)
    case DoApplyStatus(target, st, settle) =>
      if PendingPaired(r) then Some(ApplyStatus(r, target, st, settle)) else None
    case DoApplyFill(corrects, quantity, value) => Some(ApplyFill(r, corrects, quantity, value))
    case DoMarkExpired(at) => MarkExpired(r, at)
    case DoBindClient(client) => Some(BindClient(r, client))
  }

  ghost predicate Run(rows: seq<Row>, steps: seq<Step>) {
    && |rows| == |steps| + 1
    && forall i | 0 <= i < |steps| :: StepRow(rows[i], steps[i]) == Some(rows[i + 1])
  }

  // ------------------------------------------------------------ terminal closure

  /** Terminal states by how final they are; nonterminal states have rank 0. */
  function Finality(s: State): nat {
    if !Terminal(s) then 0 else if s == Filled then 3 else if s == Cancelled then 1 else 2
  }

  lemma {:induction false} TerminalStep(r: Row, step: Step, r': Row)
    requires StepRow(r, step) == Some(r') && Terminal(r.state)
    ensures r'.state == r.state || (r.state == Cancelled && r'.state == Expired) || r'.state == Filled
    ensures r'.state != r.state ==> Finality(r'.state) > Finality(r.state)
  {
  }

  /** How often the run moves from one terminal state to a different state. */
  function TerminalMoves(rows: seq<Row>): nat {
    if |rows| < 2 then 0
    else (if Terminal(rows[0].state) && rows[1].state != rows[0].state then 1 else 0) + TerminalMoves(rows[1..])
  }

  lemma {:induction false} TerminalRun(rows: seq<Row>, steps: seq<Step>, i: nat, j: nat)
    requires Run(rows, steps) && i <= j < |rows| && Terminal(rows[i].state)
    ensures Terminal(rows[j].state)
    ensures Finality(rows[j].state) >= Finality(rows[i].state)
    ensures rows[i].state == Filled ==> rows[j].state == Filled
    ensures rows[i].state == Expired ==> rows[j].state in {Expired, Filled}
    decreases j - i
  {
    if i < j {
      TerminalStep(rows[i], steps[i], rows[i + 1]);
      TerminalRun(rows, steps, i + 1, j);
    }
  }

  lemma {:induction false} TerminalMovesBounded(rows: seq<Row>, steps: seq<Step>)
    requires Run(rows, steps)
    ensures TerminalMoves(rows) <= 2
    ensures Terminal(rows[0].state) ==> TerminalMoves(rows) <= 3 - Finality(rows[0].state)
    decreases |rows|
  {
    if |rows| >= 2 {
      var rest := rows[1..];
      assert Run(rest, steps[1..]);
      TerminalMovesBounded(rest, steps[1..]);
      if Terminal(rows[0].state) { TerminalStep(rows[0], steps[0], rows[1]); }
    }
  }

  // ---------------------------------------------------- revision as version stamp

  predicate ClientUnbound(r: Row) {
    r.links.clientId.None? && Fresh(r.state)
  }

  /** Equal in every stamped field, up to the one-off binding of a missing client id. */
  predicate SameVersion(a: Row, b: Row) {
    StampedOf(a) == StampedOf(b) || (ClientUnbound(a) && StampedOf(BindClient(a, b.links.clientId)) == StampedOf(b))
  }

  lemma {:induction false} StampStep(r: Row, step: Step, r': Row)
    requires StepRow(r, step) == Some(r')
    ensures r.revision <= r'.revision <= r.revision + 1
    ensures r'.revision == r.revision ==> SameVersion(r, r')
  {
  }

  lemma {:induction false} RevisionIsVersionStamp(rows: seq<Row>, steps: seq<Step>, i: nat, j: nat)
    requires Run(rows, steps) && i <= j < |rows|
    ensures rows[i].revision <= rows[j].revision
    ensures rows[i].revision == rows[j].revision ==> SameVersion(rows[i], rows[j])
    decreases j - i
  {
    if i < j {
      StampStep(rows[i], steps[i], rows[i + 1]);
      RevisionIsVersionStamp(rows, steps, i + 1, j);
    }
  }

  predicate IsCommand(s: Step) { s.DoClaimReplacement? || s.DoClaimCancellation? }

  /** A replace or cancel that wins sees every stamped field exactly as its caller read it. */
  lemma {:induction false} CommandActsOnWhatWasRead(rows: seq<Row>, steps: seq<Step>, read: nat, claim: nat)
    requires Run(rows, steps) && read <= claim < |steps|
    requires IsCommand(steps[claim]) && steps[claim].expected == rows[read].revision
    ensures StampedOf(rows[claim]) == StampedOf(rows[read])
  {
    assert StepRow(rows[claim], steps[claim]) == Some(rows[claim + 1]);
    RevisionIsVersionStamp(rows, steps, read, claim);
  }

  /** Of all commands carrying one expected revision, at most one ever wins. */
  lemma {:induction false} OneCommandPerRevision(rows: seq<Row>, steps: seq<Step>, i: nat, j: nat)
    requires Run(rows, steps) && i <= j < |steps|
    requires IsCommand(steps[i]) && IsCommand(steps[j]) && steps[i].expected == steps[j].expected
    ensures i == j
  {
    assert StepRow(rows[i], steps[i]) == Some(rows[i + 1]);
    assert StepRow(rows[j], steps[j]) == Some(rows[j + 1]);
    if i < j { RevisionIsVersionStamp(rows, steps, i + 1, j); }
  }

  // --------------------------------------------------------- replacement protocol

  /** The columns that repeat the confirmed payload, and the hash that names it. */
  predicate ColumnsAgree(r: Row) {
    && r.columns == ColumnsOf(r.request)
    && r.id.side == r.request.side && r.id.orderType == r.request.orderType
    && r.id.assetType == r.request.instrument.assetType
    && r.id.ocaGroup == r.request.ocaGroup && r.id.ocaType == r.request.ocaType
    && r.hash.request == r.request
  }

  predicate PendingWellFormed(r: Row) {
    && PendingPaired(r)
    && (r.pendingRequest.Some? ==>
          && r.pendingHash.value.request == r.pendingRequest.value
          && FixedTermsOf(r.pendingRequest.value) == FixedTermsOf(r.request))
  }

  /**
   What the SDK's `replace` establishes before it claims: at some earlier moment it
   read the row, compared the fixed terms with that reading, and it presents that
   reading's revision together with the hash of the new request.
   */
  ghost predicate ReplaceDiscipline(rows: seq<Row>, steps: seq<Step>) {
    && |rows| == |steps| + 1
    && forall k | 0 <= k < |steps| && steps[k].DoClaimReplacement? ::
      && steps[k].hash.request == steps[k].q
      && exists read :: 0 <= read <= k && ReadBy(rows[read], steps[k])
  }

  predicate ReadBy(r: Row, claim: Step)
    requires claim.DoClaimReplacement?
  {
    r.revision == claim.expected && FixedTermsOf(claim.q) == FixedTermsOf(r.request)
  }

  lemma {:induction false} AgreementStep(r: Row, step: Step, r': Row)
    requires StepRow(r, step) == Some(r') && ColumnsAgree(r) && PendingWellFormed(r)
    requires step.DoClaimReplacement? ==>
      step.hash.request == step.q && FixedTermsOf(step.q) == FixedTermsOf(r.request)
    ensures ColumnsAgree(r') && PendingWellFormed(r')
  {
  }

  lemma {:induction false} ColumnsAlwaysAgree(
    intent: Intent, client: Option<int>, rows: seq<Row>, steps: seq<Step>, i: nat)
    requires Run(rows, steps) && rows[0] == NewRow(intent, client) && ReplaceDiscipline(rows, steps)
    requires i < |rows|
    ensures ColumnsAgree(rows[i]) && PendingWellFormed(rows[i])
  {
    if i > 0 {
      ColumnsAlwaysAgree(intent, client, rows, steps, i - 1);
      var step := steps[i - 1];
      if step.DoClaimReplacement? {
        var read :| 0 <= read <= i - 1 && ReadBy(rows[read], step);
        CommandActsOnWhatWasRead(rows, steps, read, i - 1);
      }
      AgreementStep(rows[i - 1], step, rows[i]);
    }
  }

  /** A replacement claimed at `k` has been pending ever since, up to and including `i`. */
  ghost predicate PendingSince(rows: seq<Row>, steps: seq<Step>, k: nat, i: nat, q: Request)
    requires |rows| == |steps| + 1
  {
    && k < i < |rows|
    && steps[k].DoClaimReplacement? && steps[k].q == q
    && forall m | k < m <= i :: rows[m].pendingRequest == Some(q)
  }

  lemma {:induction false} PendingWasClaimed(
    intent: Intent, client: Option<int>, rows: seq<Row>, steps: seq<Step>, i: nat) returns (k: nat)
    requires Run(rows, steps) && rows[0] == NewRow(intent, client)
    requires i < |rows| && rows[i].pendingRequest.Some?
    ensures PendingSince(rows, steps, k, i, rows[i].pendingRequest.value)
  {
    if rows[i - 1].pendingRequest == rows[i].pendingRequest && !steps[i - 1].DoClaimReplacement? {
      k := PendingWasClaimed(intent, client, rows, steps, i - 1);
    } else {
      k := i - 1;
    }
  }

  /** Confirmed terms change only when the broker echoes a replacement claimed earlier. */
  lemma {:induction false} TermsChangeOnlyByEcho(
    intent: Intent, client: Option<int>, rows: seq<Row>, steps: seq<Step>, i: nat) returns (k: nat)
    requires Run(rows, steps) && rows[0] == NewRow(intent, client)
    requires i < |steps| && rows[i + 1].request != rows[i].request
    ensures steps[i].DoApplyStatus? && Echoes(steps[i].st, rows[i + 1].request)
    ensures PendingSince(rows, steps, k, i, rows[i + 1].request)
    ensures rows[i + 1].pendingRequest.None?
  {
    k := PendingWasClaimed(intent, client, rows, steps, i);
  }

  /** A working status that does not echo the new terms leaves the replacement open. */
  lemma {:induction false} NonEchoKeepsReplacement(r: Row, target: State, st: Status)
    requires PendingPaired(r) && r.state == ReplacePending && r.pendingRequest.Some?
    requires !Terminal(target) && !Echoes(st, r.pendingRequest.value)
    ensures var r' := ApplyStatus(r, target, st, false);
      && r'.state == ReplacePending && r'.request == r.request
      && r'.pendingRequest == r.pendingRequest && r'.pendingHash == r.pendingHash
  {
  }

  /** Settlement ends in exactly one of promoted, reverted and mismatch. */
  lemma {:induction false} SettlementIsDecisive(r: Row, target: State, st: Status)
    requires PendingPaired(r) && r.pendingRequest.Some?
    ensures var r' := ApplyStatus(r, target, st, true); var q := r.pendingRequest.value;
      && (Echoes(st, q) ==>
            r'.request == q && r'.hash == r.pendingHash.value && r'.columns == ColumnsOf(q)
            && r'.pendingRequest.None?)
      && (!Echoes(st, q) && Echoes(st, r.request) ==>
            r'.request == r.request && r'.hash == r.hash && r'.pendingRequest.None?)
      && (!Echoes(st, q) && !Echoes(st, r.request) ==>
            && r'.request == r.request
            && r'.state == (if Terminal(r.state) then r.state else Unknown)
            && r'.lastError == Some(TermsMismatch)
            && r'.pendingRequest == (if Terminal(target) then None else Some(q)))
  {
  }

  // ------------------------------------------------------ duplicates and reordering

  /** The one way a second delivery can change something. */
  predicate Contradicted(r: Row, target: State, st: Status, settle: bool) {
    Settle(r, st, settle) == Mismatch && Terminal(target) && r.state != target
  }

  lemma {:induction false} RedeliveryWhileOpen(r: Row, target: State, st: Status, settle: bool)
    requires PendingPaired(r) && (Settle(r, st, settle) == StillPending || Settle(r, st, settle) == Mismatch)
    ensures var once := ApplyStatus(r, target, st, settle);
      ApplyStatus(once, target, st, settle) == once <==> !Contradicted(r, target, st, settle)
  {
  }

  lemma {:induction false} RedeliveryOnceSettled(r: Row, target: State, st: Status, settle: bool)
    requires PendingPaired(r) && Settle(r, st, settle) != StillPending && Settle(r, st, settle) != Mismatch
    ensures var once := ApplyStatus(r, target, st, settle);
      ApplyStatus(once, target, st, settle) == once
  {
  }

  /**
   Delivering a status twice equals delivering it once, on the whole row, except
   when a settling terminal status contradicts both known terms and the local state.
   */
  lemma {:induction false} RedeliveryIsIdempotentIff(r: Row, target: State, st: Status, settle: bool)
    requires PendingPaired(r)
    ensures var once := ApplyStatus(r, target, st, settle);
      ApplyStatus(once, target, st, settle) == once <==> !Contradicted(r, target, st, settle)
  {
    if Settle(r, st, settle) == StillPending || Settle(r, st, settle) == Mismatch {
      RedeliveryWhileOpen(r, target, st, settle);
    } else {
      RedeliveryOnceSettled(r, target, st, settle);
    }
  }

  /** What `replace` asks of an order and of its new terms. */
  predicate Replaceable(intent: Intent, q: Request) {
    var was := intent.request;
    && FixedTermsOf(q) == FixedTermsOf(was) && q.account == was.account && q.orderRef == intent.clientOrderId
    && was.ocaGroup.None? && was.instrument.assetType != Combo && !was.whatIf && q.quantity > 0.0
  }

  function ReplacementHash(intent: Intent, q: Request): OrderHash {
    HashOf(intent.(request := q, metadata := map["operation" := "REPLACE"]))
  }

  /** An order that was submitted and acknowledged, with the steps it took. */
  lemma {:induction false} Acknowledges(intent: Intent, ack: Status) returns (rows: seq<Row>, steps: seq<Step>)
    requires LifecycleFromStatus(ack) == Acknowledged
    ensures Run(rows, steps) && rows[0] == NewRow(intent, None) && forall k | 0 <= k < |steps| :: !IsCommand(steps[k])
    ensures var r := rows[|steps|];
      && r.state == Acknowledged && r.pendingRequest.None? && r.request == intent.request && PendingPaired(r)
      && r.progress.filled == ack.filled
  {
    var r0 := NewRow(intent, None);
    var s0 := DoTransition(Authorized, None, None, None);
    var r1 := StepRow(r0, s0).value;
    var s1 := DoClaimSubmission("a", 0);
    var r2 := StepRow(r1, s1).value;
    var s2 := DoApplyStatus(Acknowledged, ack, false);
    var r3 := StepRow(r2, s2).value;
    rows, steps := [r0, r1, r2, r3], [s0, s1, s2];
  }

  /** A row with an open replacement, on the way any order takes there. */
  lemma {:induction false} ReplacementOpened(intent: Intent, q: Request, ack: Status)
    returns (rows: seq<Row>, steps: seq<Step>)
    requires Replaceable(intent, q) && LifecycleFromStatus(ack) == Acknowledged && ack.filled <= q.quantity
    ensures Run(rows, steps) && ReplaceDiscipline(rows, steps) && rows[0] == NewRow(intent, None)
    ensures var r := rows[|steps|];
      && r.state == ReplacePending && r.pendingRequest == Some(q) && r.request == intent.request && PendingPaired(r)
  {
    rows, steps := Acknowledges(intent, ack);
    var r := rows[|steps|];
    var claim := DoClaimReplacement(r.revision, q, ReplacementHash(intent, q), "d", "b", 1);
    var r' := StepRow(r, claim).value;
    RunSnoc(rows, steps, claim, r');
    assert ReadBy((rows + [r'])[|steps|], claim);
    rows, steps := rows + [r'], steps + [claim];
  }

  /**
   Any settling status that closes an order and matches neither of its terms does so on the
   second delivery only: the first leaves the order unknown, the second closes it.
   */
  lemma {:induction false} SecondDeliveryCloses(intent: Intent, q: Request, ack: Status, st: Status)
    returns (rows: seq<Row>, steps: seq<Step>)
    requires Replaceable(intent, q) && LifecycleFromStatus(ack) == Acknowledged && ack.filled <= q.quantity
    requires !Echoes(st, q) && !Echoes(st, intent.request) && Terminal(LifecycleFromStatus(st))
    ensures Run(rows, steps) && ReplaceDiscipline(rows, steps) && rows[0] == NewRow(intent, None) && |steps| >= 2
    ensures steps[|steps| - 1] == steps[|steps| - 2] == DoApplyStatus(LifecycleFromStatus(st), st, true)
    ensures rows[|steps| - 1].state == Unknown && rows[|steps|].state == LifecycleFromStatus(st)
  {
    rows, steps := ReplacementOpened(intent, q, ack);
    var step, r := DoApplyStatus(LifecycleFromStatus(st), st, true), rows[|steps|];
    var once := ApplyStatus(r, step.target, st, true);
    var twice := ApplyStatus(once, step.target, st, true);
    Mismatched(r, q, st);
    StatusSnoc(rows, steps, step, once);
    StatusSnoc(rows + [once], steps + [step], step, twice);
    rows, steps := rows + [once] + [twice], steps + [step] + [step];
  }

  /** A mismatch clears the replacement when the status is terminal, so that the repeat has nothing to settle. */
  lemma {:induction false} Mismatched(r: Row, q: Request, st: Status)
    requires PendingPaired(r) && r.state == ReplacePending && r.pendingRequest == Some(q)
    requires !Echoes(st, q) && !Echoes(st, r.request) && Terminal(LifecycleFromStatus(st))
    ensures var once := ApplyStatus(r, LifecycleFromStatus(st), st, true);
      && once.state == Unknown && once.pendingRequest.None?
      && ApplyStatus(once, LifecycleFromStatus(st), st, true).state == LifecycleFromStatus(st)
  {
  }

  lemma {:induction false} StatusSnoc(rows: seq<Row>, steps: seq<Step>, step: Step, r: Row)
    requires Run(rows, steps) && ReplaceDiscipline(rows, steps)
    requires step.DoApplyStatus? && StepRow(rows[|steps|], step) == Some(r)
    ensures Run(rows + [r], steps + [step]) && ReplaceDiscipline(rows + [r], steps + [step])
  {
    RunSnoc(rows, steps, step, r);
    forall k | 0 <= k < |steps + [step]| && (steps + [step])[k].DoClaimReplacement?
      ensures exists read :: 0 <= read <= k && ReadBy((rows + [r])[read], (steps + [step])[k])
    {
      var read :| 0 <= read <= k && ReadBy(rows[read], steps[k]);
      assert ReadBy((rows + [r])[read], (steps + [step])[k]);
    }
  }

  lemma {:induction false} RunSnoc(rows: seq<Row>, steps: seq<Step>, step: Step, r: Row)
    requires Run(rows, steps) && StepRow(rows[|steps|], step) == Some(r)
    ensures Run(rows + [r], steps + [step])
  {
    forall i | 0 <= i < |steps + [step]| ensures StepRow((rows + [r])[i], (steps + [step])[i]) == Some((rows + [r])[i + 1]) {
      if i < |steps| { assert StepRow(rows[i], steps[i]) == Some(rows[i + 1]); }
    }
  }

  /** Callbacks of one order, each applied with the lifecycle state its status denotes. */
  function FoldStatuses(r: Row, ss: seq<Status>): (r': Row)
    requires PendingPaired(r)
    ensures r.pendingRequest.None? ==> r'.pendingRequest.None?
    ensures PendingPaired(r')
  {
    if ss == [] then r
    else
      var last := |ss| - 1;
      ApplyStatus(FoldStatuses(r, ss[..last]), LifecycleFromStatus(ss[last]), ss[last], false)
  }

  function Targets(ss: seq<Status>): (ts: seq<State>)
    ensures |ts| == |ss| && forall i | 0 <= i < |ss| :: ts[i] == LifecycleFromStatus(ss[i])
  {
    seq(|ss|, i requires 0 <= i < |ss| => LifecycleFromStatus(ss[i]))
  }

  /** The state component of such a fold when no replacement is pending. */
  function Climb(s: State, ts: seq<State>): State {
    if ts == [] then s else StateAfter(Climb(s, ts[..|ts| - 1]), ts[|ts| - 1], NothingPending)
  }

  lemma {:induction false} FoldClimbs(r: Row, ss: seq<Status>)
    requires PendingPaired(r) && r.pendingRequest.None?
    ensures FoldStatuses(r, ss).state == Climb(r.state, Targets(ss))
  {
    if ss != [] {
      var front := ss[..|ss| - 1];
      FoldClimbs(r, front);
      assert Targets(front) == Targets(ss)[..|ss| - 1];
    }
  }

  /** What statuses can denote: a rung of the ladder, UNKNOWN, or a terminal state. */
  predicate Denotable(t: State) { Terminal(t) || Rank(t).Some? || t == Unknown }

  lemma {:induction false} LadderStep(s: State, t: State)
    requires Rank(s).Some? && Denotable(t) && !Terminal(t)
    ensures var r := StateAfter(s, t, NothingPending);
      && (r == s || r == t) && Rank(r).Some? && Rank(r).value >= Rank(s).value
      && (Rank(t).Some? ==> Rank(t).value <= Rank(r).value)
  {
  }

  /** Without a terminal status the order ends at the highest rank it was ever told. */
  lemma {:induction false} LadderClimb(s: State, ts: seq<State>)
    requires Rank(s).Some? && forall i | 0 <= i < |ts| :: Denotable(ts[i]) && !Terminal(ts[i])
    ensures Rank(Climb(s, ts)).Some? && Rank(Climb(s, ts)).value >= Rank(s).value
    ensures Climb(s, ts) == s || Climb(s, ts) in ts
    ensures forall i | 0 <= i < |ts| && Rank(ts[i]).Some? :: Rank(ts[i]).value <= Rank(Climb(s, ts)).value
  {
    if ts != [] {
      LadderClimb(s, ts[..|ts| - 1]);
      LadderStep(Climb(s, ts[..|ts| - 1]), ts[|ts| - 1]);
    }
  }

  ghost predicate FirstTerminalAt(ts: seq<State>, k: nat) {
    k < |ts| && Terminal(ts[k]) && forall i | 0 <= i < k :: !Terminal(ts[i])
  }

  /** The first terminal status decides, whatever follows. */
  lemma {:induction false} FirstTerminalWins(s: State, ts: seq<State>, k: nat)
    requires Rank(s).Some? && FirstTerminalAt(ts, k) && forall i | 0 <= i < |ts| :: Denotable(ts[i])
    ensures Climb(s, ts) == ts[k]
  {
    var last := |ts| - 1;
    if k < last { FirstTerminalWins(s, ts[..last], k); } else { LadderClimb(s, ts[..last]); }
  }

  lemma {:induction false} FirstTerminal(ts: seq<State>, i: nat) returns (k: nat)
    requires i < |ts| && Terminal(ts[i])
    ensures FirstTerminalAt(ts, k)
  {
    if j :| 0 <= j < i && Terminal(ts[j]) { k := FirstTerminal(ts, j); } else { k := i; }
  }

  ghost predicate OneTerminalTarget(ts: seq<State>) {
    forall i, j | 0 <= i < |ts| && 0 <= j < |ts| && Terminal(ts[i]) && Terminal(ts[j]) :: ts[i] == ts[j]
  }

  lemma {:induction false} ClimbToTerminal(s: State, ts: seq<State>, us: seq<State>, i: nat)
    requires Rank(s).Some? && (forall t :: t in ts <==> t in us) && OneTerminalTarget(ts)
    requires (forall t <- ts :: Denotable(t)) && (forall t <- us :: Denotable(t))
    requires i < |ts| && Terminal(ts[i])
    ensures Climb(s, ts) == Climb(s, us)
  {
    assert ts[i] in us;
    var j :| 0 <= j < |us| && us[j] == ts[i];
    var k := FirstTerminal(ts, i);
    var m := FirstTerminal(us, j);
    FirstTerminalWins(s, ts, k);
    FirstTerminalWins(s, us, m);
    assert us[m] in ts;
  }

  lemma {:induction false} ClimbIgnoresOrder(s: State, ts: seq<State>, us: seq<State>)
    requires Rank(s).Some? && (forall t :: t in ts <==> t in us) && OneTerminalTarget(ts)
    requires (forall t <- ts :: Denotable(t)) && (forall t <- us :: Denotable(t))
    ensures Climb(s, ts) == Climb(s, us)
  {
    if i :| 0 <= i < |ts| && Terminal(ts[i]) {
      ClimbToTerminal(s, ts, us, i);
    } else {
      assert forall i | 0 <= i < |us| :: us[i] in ts;
      LadderClimb(s, ts);
      LadderClimb(s, us);
      assert forall t | t in ts || t in us :: t in ts && t in us;
    }
  }

  /** The working rows the theorem is about: on the ladder, no replacement open. */
  ghost predicate OnLadder(r: Row) {
    PendingPaired(r) && r.pendingRequest.None? && Rank(r.state).Some?
  }

  /** Same statuses, any order and any number of repeats: the same lifecycle state. */
  lemma {:induction false} CallbackOrderIrrelevant(r: Row, ss: seq<Status>, us: seq<Status>)
    requires OnLadder(r) && (forall t :: t in Targets(ss) <==> t in Targets(us)) && OneTerminalTarget(Targets(ss))
    ensures FoldStatuses(r, ss).state == FoldStatuses(r, us).state
  {
    FoldClimbs(r, ss);
    FoldClimbs(r, us);
    ClimbIgnoresOrder(r.state, Targets(ss), Targets(us));
  }

  lemma {:induction false} PermutationSameTargets(ss: seq<Status>, us: seq<Status>)
    requires multiset(us) == multiset(ss)
    ensures forall t :: t in Targets(ss) <==> t in Targets(us)
  {
    assert forall st :: st in ss <==> st in multiset(ss);
    assert forall st :: st in us <==> st in multiset(us);
    forall t ensures t in Targets(ss) <==> t in Targets(us) {
      if t in Targets(ss) {
        var i :| 0 <= i < |ss| && Targets(ss)[i] == t;
        assert ss[i] in us;
        var j :| 0 <= j < |us| && us[j] == ss[i];
        assert Targets(us)[j] == t;
      }
      if t in Targets(us) {
        var j :| 0 <= j < |us| && Targets(us)[j] == t;
        assert us[j] in ss;
        var i :| 0 <= i < |ss| && ss[i] == us[j];
        assert Targets(ss)[i] == t;
      }
    }
  }

  /** Delivery order cannot matter exactly when the statuses name at most one terminal state. */
  lemma {:induction false} CallbackConfluenceIff(r: Row, ss: seq<Status>)
    requires OnLadder(r)
    ensures OneTerminalTarget(Targets(ss))
      <==> forall us: seq<Status> | multiset(us) == multiset(ss) ::
             FoldStatuses(r, us).state == FoldStatuses(r, ss).state
  {
    if OneTerminalTarget(Targets(ss)) {
      forall us: seq<Status> | multiset(us) == multiset(ss)
        ensures FoldStatuses(r, us).state == FoldStatuses(r, ss).state
      {
        PermutationSameTargets(ss, us);
        CallbackOrderIrrelevant(r, ss, us);
      }
    } else {
      var us := TerminalSwap(r.state, ss);
      FoldClimbs(r, ss);
      FoldClimbs(r, us);
    }
  }

  /** Two different terminal targets: exchanging two statuses changes the outcome. */
  lemma {:induction false} TerminalSwap(s: State, ss: seq<Status>) returns (us: seq<Status>)
    requires Rank(s).Some? && !OneTerminalTarget(Targets(ss))
    ensures multiset(us) == multiset(ss) && Climb(s, Targets(us)) != Climb(s, Targets(ss))
  {
    var ts := Targets(ss);
    var a, b :| 0 <= a < |ts| && 0 <= b < |ts| && Terminal(ts[a]) && Terminal(ts[b]) && ts[a] != ts[b];
    var k := FirstTerminal(ts, a);
    var m := if ts[a] != ts[k] then a else b;
    us := Exchanged(ss, k, m);
    FirstTerminalWins(s, ts, k);
    FirstTerminalWins(s, Targets(us), k);
  }

  function Exchanged<T>(s: seq<T>, k: nat, m: nat): (t: seq<T>)
    requires k < |s| && m < |s|
    ensures multiset(t) == multiset(s) && |t| == |s|
    ensures t[k] == s[m] && t[m] == s[k] && forall i | 0 <= i < |s| && i != k && i != m :: t[i] == s[i]
  {
    s[k := s[m]][m := s[k]]
  }
}
