# Order safety model of the trading platform

This project models, in Dafny, the part of the platform that decides whether, how often
and how large orders reach a broker, and proves what it keeps over whole runs:

- the durable order ledger, its 14 lifecycle states, compare-and-set claims, optimistic
  revision, pending-replacement slot, execution versions, event journal and lease row;
- the execution SDK as small programs whose ledger transactions interleave with broker
  callbacks, TTL expiry, reconciliation and crashes;
- reconciliation with the broker, which rebuilds the ledger and decides on READY;
- pre-trade risk, the budget of a one-cancels-all group, and the gross exposure over runs;
- defined-risk option verticals against their payoff at expiry;
- the strategy runtime with its checkpoint and deterministic order ids;
- the message limiter, the simulated broker and order manager as two position books, and
  the quote bar aggregator.

Every ledger method is one atomic transaction, because each is one database transaction in
the source. Decimals are reals, timestamps are integers (seconds, except in the limiter,
whose clock is real), JSON payloads are datatypes, and a SHA-256 digest is the payload it
digests. Where the source changes objects in place the model has classes and methods, each
proved against a function of the old state; the lemmas about runs speak about those functions.

| File | Contents |
|---|---|
| `Orders.dfy` | states, requests, statuses, order rows and one-row transactions |
| `OrderRuns.dfy` | theorems over any run of transactions on one row |
| `OrderTable.dfy`, `Executions.dfy`, `ExecutionRepeats.dfy`, `Ledger.dfy` | creation, claims, identity matching, fills, repeated fills, and the ledger class |
| `Placement.dfy` | interleaved submissions and at-most-once placement |
| `Positions.dfy`, `Reconciliation.dfy` | position comparison and the READY decision |
| `OpenRisk.dfy`, `Risk.dfy`, `Exposure.dfy`, `ExposureRace.dfy`, `ExposureCeiling.dfy`, `Supervisor.dfy`, `Combos.dfy` | risk and TTL expiry |
| `StrategyRuntime.dfy`, `StrategyRuns.dfy`, `StrategyRetries.dfy` | the runtime as programmed, its runs, and what failures do |
| `EventFeed.dfy`, `Lease.dfy`, `Pacing.dfy`, `Books.dfy`, `Bars.dfy` | the other components |
| `Sums.dfy`, `Wrappers.dfy` | sums over maps, `Option`, `Result` and map lookups |

Some expectations are false of the code. The model keeps the code's behaviour, shows runs or
inputs on which the expectation fails, and states when it holds:

- A redelivered execution id that was already superseded becomes live again; that, and
  nothing else, breaks "one live version per fill" (`Executions.UniquenessPreservedIff`). The
  next new fill then counts both (`ExecutionRepeats.RevivalCountsTwice`).
- A status delivered twice has the effect of one delivery unless a settling terminal status
  contradicts both known terms and the local state (`OrderRuns.RedeliveryIsIdempotentIff`);
  then the second delivery closes what the first left unknown
  (`OrderRuns.SecondDeliveryCloses`).
- Callbacks may be reordered freely if and only if they name at most one terminal state
  (`OrderRuns.CallbackConfluenceIff`).
- The gross cap can be exceeded, but never by more than what a pair of reads had lost sight of:
  fills made after the gross position value was read and reported before the open orders were
  (`Exposure.ExposureIsBounded`). Without such a report the cap holds
  (`Exposure.ExposureNeverExceedsCap`); with one, every excess up to the cap itself is reached
  (`ExposureRace.LostFillBreaksCap`). Exposure never exceeds twice the cap
  (`ExposureCeiling.ExposureAtMostTwiceCap`).
- TTL expiry without a broker id does not ask the broker, so an unanswered submission may still
  be alive although its exposure has left the books (`Supervisor.UnansweredSubmissionExpires`);
  with a broker id the order expires only on the broker's word (`Supervisor.SentExpiresIff`),
  and a cancellation that reports both a filled and a remaining part leaves it open for good
  (`Supervisor.SplitCancellationStaysOpen`).
- Leases are exclusive, and stay so whatever is done next, if and only if nobody brings an
  expiry forward (`Lease.ExclusiveIff`, `Lease.ShorteningBreaks`).
- A pass that raises, unlike a crash, checkpoints strategy state past a bar that will be taken
  again. The checkpoint is what the completed passes lead to if and only if failing passes leave
  the state alone (`StrategyRetries.SoundRunIff`, `StrategyRetries.FailureShows`).
- Stopping a runtime that was never started overwrites its checkpoint with an empty one
  (`StrategyRuns.ForgetsIff`, `StrategyRuns.EarlyStopForgets`).
- A group may sell a stock that is not held when the snapshot lacks its key and the group also
  buys another instrument of the symbol (`Risk.GroupNeverShortsStock`,
  `Risk.OtherListingCoversShort`).

## Model

| member | source | states |
|---|---|---|
| `Orders.ApplyStatus` | platform_core/sdk/ledger.py:875-949 | a broker status never changes the order's identity, keeps the pending slot paired, and yields the state that settlement, terminal closure and the regression rule prescribe |
| `OrderRuns.TerminalStep` | platform_core/sdk/ledger.py:655-658 | the only terminal-to-terminal moves are CANCELLED to EXPIRED and any to FILLED |
| `OrderRuns.TerminalRun` | platform_core/sdk/ledger.py:313-349 | over any run terminal orders stay terminal and FILLED is absorbing |
| `OrderRuns.TerminalMovesBounded` | platform_core/sdk/ledger.py:951-968 | an order changes terminal state at most twice in any run |
| `OrderRuns.RevisionIsVersionStamp` | platform_core/sdk/ledger.py:1346-1363 | two moments of a row with equal revision agree on every stamped field, up to the one-off client-id binding |
| `OrderRuns.CommandActsOnWhatWasRead` | platform_core/sdk/ledger.py:400-466 | a replace or cancel claim that wins finds every stamped field as its caller read it |
| `OrderRuns.OneCommandPerRevision` | platform_core/sdk/ledger.py:437-466 | of all commands with one expected revision at most one ever wins |
| `OrderRuns.ColumnsAlwaysAgree` | platform_core/sdk/execution.py:586-601 | under the immutability check of `replace`, the duplicated columns and the hash always agree with the confirmed request |
| `OrderRuns.PendingWasClaimed` | platform_core/sdk/ledger.py:400-435 | a pending replacement was claimed earlier and has been pending ever since |
| `OrderRuns.TermsChangeOnlyByEcho` | platform_core/sdk/ledger.py:1220-1244 | confirmed terms change only when a status echoes a replacement claimed earlier |
| `OrderRuns.NonEchoKeepsReplacement` | platform_core/sdk/ledger.py:889-934 | a working, non-settling status that does not echo the new terms leaves the replacement pending |
| `OrderRuns.SettlementIsDecisive` | platform_core/sdk/ledger.py:889-934 | settlement ends in promoted, reverted or mismatch, with the resulting terms, hash and state of each |
| `OrderRuns.RedeliveryIsIdempotentIff` | platform_core/sdk/ledger.py:875-949 | a second delivery of a status changes nothing, on the whole row, exactly when it does not contradict terms and state |
| `OrderRuns.SecondDeliveryCloses` | platform_core/sdk/ledger.py:875-949 | for every order, every replacement that `replace` may claim and every settling terminal status that matches neither terms, a run from creation in which the first delivery leaves the order UNKNOWN and the second closes it |
| `OrderRuns.FoldClimbs` | platform_core/sdk/ledger.py:875-949 | the state after a sequence of non-settling callbacks is a fold over the states they denote |
| `OrderRuns.LadderClimb` | platform_core/sdk/ledger.py:1386-1401 | without terminal targets the fold ends on the highest rank seen |
| `OrderRuns.CallbackOrderIrrelevant` | platform_core/sdk/ledger.py:1386-1401 | from a working-ladder state, callback sequences with the same targets and at most one terminal target end in the same state |
| `OrderRuns.CallbackConfluenceIff` | platform_core/sdk/ledger.py:913-934 | every reordering of the callbacks ends in the same state if and only if they name at most one terminal state |
| `OrderTable.CreationKeepsRows` | platform_core/sdk/ledger.py:185-288 | creating an intent keeps every row's identity and state, up to binding a missing client id |
| `OrderTable.RetryReplaysOrIsRefused` | platform_core/sdk/ledger.py:185-288 | an id never stands for two payloads: a retry replays the first row or is refused without effect |
| `OrderTable.GroupClaimIsAtomic` | platform_core/sdk/ledger.py:373-398 | a group claim moves every member to SUBMITTING or touches nothing, and never another row |
| `OrderTable.SingleClaim` | platform_core/sdk/ledger.py:351-371 | claiming one order is the group claim of that order |
| `OrderTable.MatchOrder` | platform_core/sdk/ledger.py:1247-1289 | a broker message is linked exactly when one row matches it |
| `OrderTable.MatchDependsOnIdentity` | platform_core/sdk/ledger.py:1292-1343 | matching depends on identity columns and broker links only |
| `OrderTable.ReportedOrderIsRecognised` | platform_core/sdk/ledger.py:1247-1343 | a row that recorded a status answers to the next status of that order, exactly when the status carries a client or permanent id |
| `Executions.VersionsShareRoot` | platform_core/sdk/ledger.py:1379-1383 | corrections of one fill have one root id |
| `Executions.UniquenessPreservedIff` | platform_core/sdk/ledger.py:563-662 | a delivery keeps one live version per root exactly when it does not revive a superseded record |
| `Executions.DeliveryAggregates` | platform_core/sdk/ledger.py:563-662 | one delivery keeps filled, remaining and average price equal to what the live versions add up to |
| `Executions.StreamAggregates` | platform_core/sdk/ledger.py:563-662 | so does any stream of first deliveries, corrections and live repeats |
| `ExecutionRepeats.AggregatesAfterNewIff` | platform_core/sdk/ledger.py:637-661 | after a new execution id the order adds up exactly when it corrects a live version or the live executions reach what was counted as filled |
| `ExecutionRepeats.AggregatesAfterRepeatIff` | platform_core/sdk/ledger.py:628-661 | after a repeated execution id the order still adds up exactly when that version was live, or the order is full at that price |
| `ExecutionRepeats.RevivalCountsTwice` | platform_core/sdk/ledger.py:563-662 | an execution, its correction and the execution again leave two live versions from an empty table, the order counts one, and the next fill makes it count both |
| `Ledger.OrderLedger.CreateOrGetIntent` | platform_core/sdk/ledger.py:185-288 | the method's branches do exactly what the creation function says, errors included |
| `Ledger.OrderLedger.TransitionOrder` | platform_core/sdk/ledger.py:313-349 | the method moves the row as the transition function says, or raises and leaves the table alone |
| `Ledger.OrderLedger.ClaimSubmissionGroup` | platform_core/sdk/ledger.py:373-398 | counting updated rows and rolling back gives the all-or-nothing claim |
| `Ledger.OrderLedger.ClaimReplacementOf` | platform_core/sdk/ledger.py:400-435 | wins exactly when revision, state and filled quantity allow it, and then opens the pending slot |
| `Ledger.OrderLedger.ClaimCancellationOf` | platform_core/sdk/ledger.py:437-466 | wins exactly when revision, state and a known broker id allow it |
| `Ledger.OrderLedger.ApplyReconciledStatus` | platform_core/sdk/ledger.py:875-949 | the column-by-column method equals the status function the run theorems use |
| `Ledger.OrderLedger.MarkExpiredAfterCancel` | platform_core/sdk/ledger.py:951-968 | only a CANCELLED row becomes EXPIRED |
| `Ledger.OrderLedger.UpsertExecution` | platform_core/sdk/ledger.py:563-662 | finding, superseding, recording and re-summing equals the delivery function |
| `Ledger.OrderLedger.OpenOrderRiskNotional` | platform_core/sdk/ledger.py:776-800 | the loop returns the sum of every possibly live order's exposure, or fails exactly when one cannot be reconstructed |
| `OpenRisk.OpenNotionalAfterWrite` | platform_core/sdk/ledger.py:776-800 | writing one row changes the rebuilt exposure by that row's difference |
| `Placement.FreshNeverReentered` | platform_core/sdk/ledger.py:58-126 | no ledger transaction takes an order back to INTENT_PERSISTED or AUTHORIZED once it has left them |
| `Placement.StepKeepsInv` | platform_core/sdk/execution.py:445-553 | every step of every call, callback, expiry, reconciliation and crash keeps the placement invariant |
| `Placement.AtMostOncePlacement` | platform_core/sdk/execution.py:445-553 | in every interleaving each client order id is placed at most once, with the payload first persisted for it |
| `Placement.FirstPayloadIsForever` | platform_core/sdk/ledger.py:185-288 | the payload first persisted under an id stays, and an order that left the fresh states never returns |
| `Positions.PositionDifferences` | platform_core/sdk/execution.py:1659-1683 | reports exactly the keys whose broker quantity differs from baseline plus managed executions |
| `Positions.ComboMovesItsLegs` | platform_core/sdk/execution.py:1686-1718 | a combo fill moves every position as its legs would if traded one by one |
| `Positions.OppositeExecutionsCancel` | platform_core/sdk/execution.py:1686-1718 | trading the same quantity back leaves every position unchanged |
| `Reconciliation.LatestIsNewest` | platform_core/sdk/execution.py:1649-1656 | one status per key survives and none that arrived is newer |
| `Reconciliation.LatestStatuses` | platform_core/sdk/execution.py:1649-1656 | the dictionary loop computes those survivors |
| `Reconciliation.AgreementSettles` | platform_core/sdk/execution.py:214-252 | an agreeing status leaves nothing pending, confirmed terms equal to the reported ones and the reported progress |
| `Reconciliation.Reconciler.ReconcileStatuses` | platform_core/sdk/execution.py:188-252 | the status loop leaves the orders, matched ids and blocking issues that a pass over the survivors defines |
| `Reconciliation.Reconciler.ReconcileExecutions` | platform_core/sdk/execution.py:254-265 | blocking issues arise exactly when some execution cannot be tied to an order |
| `Reconciliation.Reconciler.FindOrphans` | platform_core/sdk/execution.py:267-285 | blocking issues arise exactly when a submitted open order went unmentioned |
| `Reconciliation.Reconciler.CheckPositions` | platform_core/sdk/execution.py:287-327 | no issue exactly when positions are explained, or need no adoption |
| `Reconciliation.Reconciler.ReplacePositions` | platform_core/sdk/ledger.py:686-714 | stores the account's own positions, or raises and keeps the old ones exactly when two share their primary key |
| `Reconciliation.Reconciler.Run` | platform_core/sdk/execution.py:154-346 | READY if and only if the clean condition holds and no two of the account's positions share a key; two that do raise while being stored, which leaves the session in reconciliation; the baseline is replaced exactly when positions are fine and stored; a failed snapshot changes nothing |
| `Reconciliation.ReadyIsSound` | platform_core/sdk/execution.py:154-346 | what READY means: every surviving open status names one agreeing order, every execution is tied, nothing submitted is missing, broker quantity is baseline plus managed executions for every key |
| `EventFeed.EventJournal.RecordEvent` | platform_core/sdk/ledger.py:468-493 | appends once per dedupe key, with growing ids, linked to the resolved order |
| `EventFeed.EventJournal.StrategyOrderEvents` | platform_core/sdk/ledger.py:495-539 | the scan returns the first events of the strategy past the cursor, or the argument error |
| `EventFeed.DeliveryIsGapFree` | platform_core/sdk/client.py:242-258 | under any interleaving of appends, order changes and reads, delivered events are exactly the strategy's own up to the cursor, in order |
| `EventFeed.ReadsReachTheEnd` | platform_core/sdk/client.py:242-258 | without appends, repeated reads reach the end |
| `Lease.LeaseTable.Acquire` | platform_core/sdk/ledger.py:1015-1054 | who gets the lease row and what it then says |
| `Lease.LeaseTable.Renew` | platform_core/sdk/ledger.py:1056-1078 | renews exactly for the holder of an unexpired lease |
| `Lease.LeaseTable.Release` | platform_core/sdk/ledger.py:1080-1088 | releases exactly for the holder |
| `Lease.LeaseTable.IsOwned` | platform_core/sdk/ledger.py:165-183 | owned exactly by the holder of an unexpired lease |
| `Lease.LeaseIsExclusive` | platform_core/sdk/ledger.py:1015-1088 | grants of different holders never overlap, and owning the lease is holding a running grant |
| `Lease.ConstantTtlOnlyExtends` | platform_core/sdk/ledger.py:1015-1088 | with one TTL and serial timestamps no lease is ever shortened |
| `Lease.ExclusiveIff` | platform_core/sdk/ledger.py:1015-1088 | a run never brings an expiry forward if and only if each of its moments, and each one-step continuation of it, is exclusive |
| `Lease.ShorteningBreaks` | platform_core/sdk/ledger.py:1015-1078 | after any step that brings an expiry forward, the next acquisition by another holder succeeds and overlaps |
| `Lease.ShorterRenewalBreaksExclusivity` | platform_core/sdk/ledger.py:1056-1078 | a run from the empty table in which a shorter renewal lets grants overlap |
| `Lease.LostUntilAcquired` | platform_core/sdk/ledger.py:1056-1078 | after expiry, takeover or release no renewal succeeds until the holder acquires again |
| `Risk.ApprovalFits` | platform_core/sdk/risk.py:148-224 | what one approval says about gross, turnover, order count, symbol, cash and held stock |
| `Risk.AuthorizeGroup` | platform_core/sdk/execution.py:873-926 | the loop over the working snapshot decides each member against a snapshot charged with its predecessors |
| `Risk.GroupFitsBudget` | platform_core/sdk/execution.py:873-928 | an approved group and each of its prefixes fit the gross, turnover, order-count, cash and symbol limits together |
| `Risk.GroupNeverShortsStock` | platform_core/sdk/risk.py:395-417 | without permission to short, no prefix of an approved group sells more of a stock than is held, by its key or else by its symbol, if the snapshot has the key or the group has no other instrument of the symbol |
| `Risk.OtherListingCoversShort` | platform_core/sdk/execution.py:905-924 | otherwise, for every amount: a group that buys one instrument of a symbol and sells another, of which nothing is held, is approved |
| `Exposure.LedgerCoversLive` | platform_core/sdk/ledger.py:776-800 | the rebuilt open-order notional is never less than what the broker can still execute |
| `Exposure.ExposureIsBounded` | platform_core/sdk/execution.py:1526-1548 | over any run at all, the same within the cap plus the most that a read pair behind an approval had lost sight of |
| `Exposure.ReadsCoverIff` | platform_core/infra/ibkr.py:779-882 | the balance of a read pair: it accounts for everything promised exactly when positions gained, since the first read, no more than what is still counted although executed or cancelled |
| `Exposure.LosesNothingIff` | platform_core/sdk/ledger.py:776-800 | order by order: a read pair loses nothing exactly when the ledger still counts for each order what was live of it at the first read |
| `Exposure.ExposureNeverExceedsCap` | platform_core/sdk/execution.py:1526-1548 | over any run in which no report between two reads tells of a fill made since the first, positions plus live and unreceived orders stay within the gross cap, and positions plus the rebuilt notional exceed it only by what the ledger has not heard of |
| `ExposureRace.LostFillBreaksCap` | platform_core/infra/ibkr.py:779-882 | the bound is reached: for every cap and every part of it, a run in which a fill of that part and its report fall between two reads ends with exposure of exactly cap plus part |
| `ExposureCeiling.ExposureAtMostTwiceCap` | platform_core/sdk/execution.py:1526-1548 | in every run open and promised orders stay within the cap, no read pair loses more than the cap, and exposure stays within twice the cap, which the run above reaches |
| `Supervisor.ExpireDueOrders` | platform_core/sdk/lifecycle.py:47-86 | every due order is expired or cancelled as its row and the broker's answer say, no other row changes, and an order that may not expire raises |
| `Supervisor.SentExpiresIff` | platform_core/sdk/lifecycle.py:63-84 | an order the broker knows expires exactly when its cancellation was claimed and answered by a cancelled status that is neither complete nor partly filled, and closes only on the broker's word |
| `Supervisor.SplitCancellationStaysOpen` | platform_core/sdk/execution.py:1628-1646 | a cancellation answered with a filled and a remaining part leaves the order CANCEL_PENDING, and no later pass that holds the lease changes it |
| `Supervisor.UnansweredSubmissionExpires` | platform_core/sdk/lifecycle.py:55-62 | a claimed, unanswered submission is expired without asking, and its exposure leaves the books |
| `Combos.ProfileIsPayoffRange` | platform_core/sdk/combos.py:179-215 | for every accepted vertical the claimed loss and profit are the exact bounds of the leg-by-leg result at expiry over every market |
| `Combos.ProfileAddsUp` | platform_core/sdk/combos.py:204-215 | both ends are positive and sum to width times multiplier |
| `Combos.LegOrderIrrelevant` | platform_core/sdk/combos.py:218-249 | listing the legs in the other order changes nothing |
| `Combos.LegsRoundTrip` | platform_core/sdk/combos.py:161-176 | decoding stored legs gives back the legs |
| `Combos.PreparedIsValid` | platform_core/sdk/combos.py:40-158 | validation accepts every prepared order with the same profile |
| `Combos.ValidatedNotionalIsWorstCase` | platform_core/sdk/combos.py:115-158 | an order that passes validation is charged exactly its worst case, whatever its metadata claims |
| `StrategyRuntime.Runtime.Start` | platform_core/plugins/runtime.py:355-375 | goes on from the checkpoint, refuses another mode, and checkpoints |
| `StrategyRuntime.Runtime.ProcessBar` | platform_core/plugins/runtime.py:435-486 | ignored, completed and failing bars, whether the plugin or a submission raises: what is sent, kept in memory and checkpointed in each case |
| `StrategyRuntime.Runtime.PollOrderEvents` | platform_core/plugins/runtime.py:488-514 | events are handled in feed order up to the first raising callback; what memory and checkpoint are then |
| `StrategyRuns.CheckpointIsFoldOfHistory` | platform_core/plugins/runtime.py:355-514 | under crashes, failures, pauses, stops and restarts at any point, checkpoint and memory are folds of their histories; the durable one completes exactly the events up to the cursor, in order, and ever later bars |
| `StrategyRuns.ForgetsIff` | platform_core/plugins/runtime.py:403-409 | a step forgets completed events or bars exactly when it stops a process that was never started |
| `StrategyRuns.HistoryGrows` | platform_core/plugins/runtime.py:355-514 | without such a stop the durable history only grows |
| `StrategyRuns.EarlyStopForgets` | platform_core/plugins/runtime.py:403-409 | from any moment without a process, creating and stopping one makes every event unread again |
| `StrategyRuns.ReplayRepeatsDecisions` | platform_core/plugins/runtime.py:516-579 | a bar replayed from the same strategy state repeats the orders of its first attempt |
| `StrategyRuns.SameIdIff` | platform_core/plugins/runtime.py:553-579 | two orders share an id exactly when date, bar end, place and decision agree |
| `StrategyRuns.DecisionPlacedAtMostOnce` | platform_core/plugins/runtime.py:435-579 | through the ledger, the order decided at one place of a bar reaches the broker at most once, however often the bar is taken |
| `StrategyRetries.SoundRunIff` | platform_core/plugins/runtime.py:445-514 | over any run, checkpoint and memory are what the completed passes alone lead to exactly when every failing pass left the strategy state as it found it |
| `StrategyRetries.FailureShows` | platform_core/plugins/runtime.py:482-486 | wherever a run has come to, a next bar that can fail and changes the state leads to a checkpoint that is not |
| `StrategyRetries.FirstBarFails` | platform_core/plugins/runtime.py:355-486 | so it does on the first bar of the first session of any plugin that changes its state on it |
| `StrategyRetries.RetryRepeatsIdIff` | platform_core/plugins/runtime.py:482-579 | a failed bar taken again repeats the id of its n-th order exactly when the plugin decides the same there from the advanced state |
| `Pacing.OrderPacing.TryAcquire` | platform_core/sdk/pacing.py:54-63 | grants exactly when the grants younger than a second leave room, and otherwise names a sufficient wait |
| `Pacing.OrderPacing.Acquire` | platform_core/sdk/pacing.py:50-64 | waits and then grants once, and ends under honest sleeps |
| `Pacing.OrderPacing.CheckNewOrdersAllowed` | platform_core/sdk/pacing.py:37-48 | refuses exactly bad counts and, else, when the messages ever granted outrun the allowed ratio of the executions recorded |
| `Pacing.EfficiencyHolds` | platform_core/sdk/pacing.py:33-68 | over any run with a bounded number of checked calls in flight, some of which end without sending, all non-exempt messages stay within the grace amount or the earned ratio, plus one full call for each caller |
| `Pacing.WindowNeverExceeded` | platform_core/sdk/pacing.py:50-72 | no half-open second contains more than the allowed number of grants |
| `Pacing.LimitHolds` | platform_core/sdk/pacing.py:50-72 | that holds of the limiter after any interleaving of callers |
| `Books.SimulatedBroker.SubmitOrder` | platform_core/broker/simulated.py:40-73 | fills once per id and appends the update and the fill |
| `Books.SimulatedBroker.ApplyFill` | platform_core/broker/simulated.py:125-151 | cash, quantity, average price and notional after a fill |
| `Books.SimulatedBroker.UpdateQuote` | platform_core/broker/simulated.py:112-123 | re-marks a held position only |
| `Books.SimulatedBroker.NetLiquidation` | platform_core/broker/simulated.py:101-110 | cash plus the notional of every position |
| `Books.OrderManager.Submit` | platform_core/execution/oms.py:27-51 | idempotent submission on both sides, rejection included |
| `Books.OrderManager.Poll` | platform_core/execution/oms.py:58-65 | applies the drained events in order |
| `Books.OrderManager.UpdatePosition` | platform_core/execution/oms.py:130-161 | quantity and average price of the manager's row after a fill |
| `Books.SamePosition` | platform_core/execution/oms.py:130-161 | the two position updates, written differently, do the same |
| `Books.BooksAgree` | platform_core/execution/oms.py:98-161 | in any run the broker's quantity and average price equal the manager's book once undrained events are applied |
| `Books.EquityAtAnyMarks` | platform_core/broker/simulated.py:101-151 | at any marks, cash plus worth is initial cash plus the result of every fill |
| `Books.EquityConserved` | platform_core/broker/simulated.py:101-151 | the reported net liquidation is initial cash plus signed quantity times multiplier times mark minus fill price, less fees |
| `Bars.QuoteBarAggregator.Update` | platform_core/data/streaming.py:66-95 | one quote: the bar it leaves open and the bar it completes |
| `Bars.QuoteBarAggregator.Flush` | platform_core/data/streaming.py:97-104 | returns and clears the open bars |
| `Bars.BucketStart` | platform_core/data/streaming.py:120-123 | a moment lies in the bucket that starts at its bucket start |
| `Bars.InstrumentsAreIndependent` | platform_core/data/streaming.py:66-95 | quotes of other instruments do not disturb an instrument's bars |
| `Bars.AggregatorIsBatch` | platform_core/data/streaming.py:66-104 | for quotes in time order, emitted plus flushed bars are the first, greatest, least and last price and greatest volume of each bucket |

## Left out

- Real threads, SQLAlchemy sessions and isolation: transactions are serial and atomic, and the insert race inside `create_or_get_intent` is not modelled.
- The IBKR socket adapter, HTTP services, metrics, market calendar, ingestion, Flex statements and fixtures: the broker is an environment that answers, reports or raises.
- Case folding and spelling of sides, order types, time in force, symbols and strategy codes, rounding to `Numeric(18,6)`, and JSON encoding; digests are taken to be injective.
- Audit timestamps (`updated_at`, `last_event_at`), commission and profit columns, the parent order id of a request, and the unique constraint on broker order ids.
- Session state, lease, safety, kill-switch, quote and pacing gates of a submission: in `Placement.dfy` any of them may raise at any point of a call.
- Kill-switch arming, liquidation, risk-policy approval and contract-rule checks.
- The risk check of a replacement and of contingent bracket exits.
- Supervisor.ExpireDueOrders: treats the pass as serial, so a row does not change between being listed and being cancelled; concurrent changes occur as steps of the run theorems.
- Non-ASCII digits in execution ids, and collisions of the text keys of positions and instruments.
- OrderRuns.ColumnsAlwaysAgree: assumes the immutability check of `replace`, because a direct ledger caller could skip it.
- Executions.StreamAggregates: speaks of streams without status callbacks in between, because a callback overwrites the fill columns.
- Reconciliation.Reconciler.Run: covers one account, and of the ways in which a transaction can raise only the position key; reconciliation windows of successive runs are not contiguous, so READY is proved sound, not complete.
- Exposure.ExposureNeverExceedsCap: covers one submitting process, plain limit orders of stocks and single options with default multipliers, fills at no more than their limit notional, no replaced or reduce-only orders, fixed marks, and broker reports that were true when sent; an order given a terminal local state has nothing left to execute.
- Lease.LeaseIsExclusive: assumes timestamps in commit order.
- EventFeed.DeliveryIsGapFree: assumes that ids grow in commit order.
- StrategyRuns.CheckpointIsFoldOfHistory: covers plugins captured by their snapshot, whose execution selection keeps no state, one process at a time and one mode; exceptions of the start, day-end and stop callbacks and of the checkpoint store are left out.
- StrategyRuns.DecisionPlacedAtMostOnce: speaks of equal decisions; an event handled, or a failed pass, between two attempts may change the strategy's mind, and then `StrategyRuns.SameIdIff` applies.
- Pacing.EfficiencyHolds: counts reduce-only orders and cancellations as exempt, because the source does not check them.
- Books.BooksAgree: covers a fresh database, one strategy, and orders submitted through the manager.
- Books.EquityConserved: assumes one multiplier for each instrument key.
- Bars.AggregatorIsBatch: covers quotes in time order for each instrument; late quotes fall into the open bar. Sub-second parts of timestamps are left out.
