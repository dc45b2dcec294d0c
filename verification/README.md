# The durable execution control plane, verified

This project models the hard parts of a trading research system in Dafny and proves what they promise.

- **The control plane.** A durable store stages decisions, reserves risk, collects approvals, arms them for a short
  time, queues submit commands in an outbox, and applies broker events once through an inbox. Workers hold a lease
  with a fencing token, claim a command, ask the broker, store its answer and mark the command. Any worker may pause or
  die between any two steps, responses may be lost and events repeated. A reconciler compares the store with a broker
  snapshot, settles what is unknown, requeues what never arrived, and freezes or unfreezes new risk.
- **The broker.** A persistent fake broker with fault scenarios, its own cash, positions, orders and event log.
- **The fact reducer** that turns a tape of broker callbacks, in any order and multiplicity, into one read model, and
  the golden-tape evaluation over it.
- **Three smaller algorithms**: the backtest loop, the exclusive allocation of scenario evidence, and the
  generation-switching restore of a backup.

## How the model is built

- Every table of the store is a map or a sequence; every transaction is one function from tables to tables
  (`ControlTables`, `FreezeGate`, `ReconciliationModel`), and the broker's likewise (`BrokerModel`). The classes
  `DurableExecutionStore`, `DurableFakeBroker`, `ExecutionWorker`, `Reconciler`, `AuthoritativeReconciler`,
  `SnapshotConsensus`, `FactStore`, `BacktestEngine` and `Destination` update their fields step by step as the
  program does, and each method is proved to leave the state that its function gives.
- A store method names the tables it may write in its `modifies` clause and states each of them in its `ensures`;
  the lemmas of `StoreFrames` say that the functions leave every other table alone, so together they fix the whole
  new state.
- `ExecutionSystem` puts store, broker and workers into one state machine whose labels are single transactions.
  A crash is the removal of a worker, and an interruption of a longer procedure is a sequence of its transactions.
  Broker snapshots are kept and may be used at any later time, for a baseline or for a whole reconciliation.
  The methods of `ExecutionWorker` are proved to be runs of these labels.
- Money and prices are whole multiples of the smallest unit; times are integers; drift budgets, backtest prices and
  decimals of the reducer are reals. A content hash is its content, so hashes are injective. Clocks, certificates and
  the answers of nondeterministic queries are parameters.

## What holds, and what does not

- Reconciliation converges: from an empty store and broker, after any interleaving, a run against a current snapshot
  raises exactly when `Raises` says so before it starts: its ticket or run is already there, an unknown command that
  the broker does not have was claimed no earlier than the snapshot, or something is to be found and its ticket is
  refused. Otherwise it finds exactly a baseline that has drifted by more than a cent and the fills that lack
  protection, converges exactly when there is neither, and leaves fills, positions, commands and reports in exact
  agreement with the broker (`ConvergesAfterAnyRun`). Protection is only ever short after a missing-protection
  scenario (`RunCovers`). Every command ends delivered or back in the queue, with one exception: when the broker does
  not have the order and a cancel was requested while its outcome was unknown, nothing requeues the command and it
  stays unknown. `SettledStatus` states exactly where each ends, and `CancelStrands` is a run with that exception.
- The verdict is exact for every store and every complete snapshot, not only for reachable ones: what is found
  (`FindingsExactly`), the status (`VerdictExactly`), the flag (`FreezeExactly`) and the table of discrepancies
  (`RowsExactly`) are given by conditions on the tables and the snapshot.
- So are the other operations, for every input: which command a claim hands out (`ClaimExactly`), when staging,
  approving, arming and leasing succeed (`TransactionLaws`), where each transaction moves a command (`CommandMovesExactly`),
  what the broker answers (`SubmitExactly`), when a quote is eligible (`AdmissionExactly`), how a vote counts
  (`RegistrationExactly`), to which order a callback belongs (`OwnerExactly`, `OrdersExactly`), which trades a backtest
  makes (`TradesExactly`) and which cases are accepted (`AllocationExactly`, `RejectedExactly`).
- A command is handed out at most once more often than it is requeued (`HandedOutOnce`).
- A reconciliation that is started twice with the same times raises on its second start (`SecondStartRaises`), because
  both the run id and the ticket id are taken from them; `FirstStartSucceeds` is a run whose first start does not.
- No intent is executed twice, fills never exceed the ordered quantity, the tokens of accepted writes never decrease
  (`AtMostOneExecution`, `TokensNeverDecrease`, `StaleWorkerCannotWrite`).
- The baseline race: the first reconciliation that finds no baseline takes one from its snapshot, which may be older
  than what the store has applied. `RaceExactly` says exactly when later runs converge nevertheless, and
  `StaleBaselineBlocks` is a run after which they never do.
- FILLED survives every broker event (`FilledSurvivesEvents`) but is not absorbing: five transactions relabel an intent
  without looking at its status. `LeavesFilledExactly` and `FilledExactly` say exactly when it is lost, and
  `FilledIsLost` is a run of a worker and a recovery that loses it. The filled quantity never shrinks
  (`FillsNeverShrink`).
- Capacity: an event that arrives after a cancel writes a released reservation back, without the check that staging
  makes. The capacity of every account holds over a run if and only if each reservation written back still fits at
  that moment (`CapacityExactly`, for one transaction `StepFitsExactly`). `EventRaisesExactly` says when an event
  raises what an account holds, and `LateFillBreachesCapacity` is a run of store, broker and workers that breaks the
  bound.
- Consensus: the verdict on an observation that was offered before answers for the scope's row, not for that
  observation. `AgreedIsConfirmedExactly` says exactly when an agreed verdict means that the offered state is
  confirmed, and `PromotionsConfirmedExactly` exactly when the authorities that a run writes are.
  `ReplayedObservationIsAgreed` and `UnconfirmedIsPromoted` are runs where they are not. With that condition every
  authority rests on at least two independent votes for exactly its state (`AuthoritiesAreConfirmed`).
- The reducer depends only on the set of facts when a fact id names one fact, which the append-only tape store
  guarantees (`ReduceDependsOnSet`, `FactStore`). For facts that may share an id, `SetDeterminedExactly` says exactly
  when it does: two facts that the reducer reads must not share an id and differ in their time of receipt.
- The backtest does not look ahead (`NoLookAhead`), with one exception: without a warm-up the first point of the
  stamped curve carries the time of the last bar (`StampedPrefixExactly`, an if and only if).
- A restore copies every file under the last component of its name. CURRENT never names a partial generation exactly
  when the names of the manifest are plain, as those of the backups that the program makes are, or nothing is ever
  copied (`CurrentIsNeverPartial`); `NestedBackupEndsPartial` is a backup where it does. A restore that was cut off is
  completed by running it again exactly when it could have succeeded in the first place (`RestoredExactly`).

## Model

| member | source | states |
|---|---|---|
| SystemTheorems.ConvergesAfterAnyRun | src/hanalpha/execution/reconciliation.py:122-473 | from empty store and broker, after any interleaving of store, worker, broker and market steps, also with baselines and whole runs from snapshots of the past: reconciling a current snapshot raises if and only if one of four checkable conditions holds before it, and otherwise reports exactly a baseline that misjudges the broker by more than a cent and what lacks protection, and CONVERGED if and only if there is neither; it leaves fills, positions and applied events equal to the broker's, cash equal up to the drift of the baseline, and every command delivered, queued or, after a cancel request, unknown, and when converged it unfreezes unless a ticket of another kind is open |
| Convergence.ReconcileExactly | src/hanalpha/execution/reconciliation.py:166-473 | from any state in which store and broker are in step: a run against the current broker raises if and only if its ticket or its run is already there, an unknown command absent at the broker was claimed no earlier than the snapshot, or something is found and its ticket is refused; otherwise its report, run row, open discrepancy rows, gate, books and commands are determined |
| Convergence.ReconcileKeepsStep | src/hanalpha/execution/reconciliation.py:166-473 | every run, against the current broker or a snapshot of the past and whatever it finds, keeps store and broker in step |
| Convergence.FoundExactly | src/hanalpha/execution/reconciliation.py:179-375 | once caught up with the broker, the order, missing-order, position, protection, cash, field and naked-exposure checks together find exactly the drift of the baseline, if it exceeds a cent, and the broker's own shortfalls of protection, and nothing else |
| Convergence.CatchesUp | src/hanalpha/execution/reconciliation.py:172-231 | recovering, ingesting, resolving and requeueing against a snapshot of the broker as it is or once was adds exactly the events of that snapshot, settles every command, and raises if and only if an unknown command absent from the snapshot was claimed no earlier than it |
| Convergence.FillsAgree | src/hanalpha/execution/control_store.py:1183-1206 | once all events are applied the stored fill of every order is the broker's |
| Convergence.PositionsAgree | src/hanalpha/execution/reconciliation.py:233-256 | summing signed fills over the local intents gives the broker's position of every instrument |
| VerdictLaws.FindingsExactly | src/hanalpha/execution/reconciliation.py:179-375 | for every store and complete snapshot: a run reports a discrepancy if and only if there is one, kind by kind: the last order of a key without an intent or with another fill, a live intent that is not listed, a differing position, a buy filled beyond its children, cash, accrued cash or base balance off by more than 10,000 units, a long position beyond its protection |
| VerdictLaws.VerdictExactly | src/hanalpha/execution/reconciliation.py:377-473 | for every store and complete snapshot: BLOCKED, and reported as frozen, if and only if one of the seven trading differences is there; DEGRADED if and only if only the accrued cash or the base balance is off; CONVERGED if and only if nothing is |
| VerdictLaws.FreezeExactly | src/hanalpha/execution/reconciliation.py:461-466 | for every store: a blocked run leaves its critical ticket open and says exactly when the flag is set; any other run leaves the store frozen if and only if a blocking ticket was open that no reconciliation resolves |
| VerdictLaws.BlockedFreezes | src/hanalpha/execution/reconciliation.py:461-466 | after any run of the system, a reconciliation that finds a trading difference leaves the store frozen |
| VerdictLaws.RowsExactly | src/hanalpha/execution/reconciliation.py:379-460 | for every store: after a run a finding is open, an open row that was not found again is superseded if something else was found about the same thing and resolved if not, and every other row is as it was |
| VerdictLaws.ChildrenExactly | src/hanalpha/execution/reconciliation.py:263-275 | the stops and the targets of an order are the sums over its active children of that type |
| ProtectionLaws.ShortfallsExactly | src/hanalpha/execution/reconciliation.py:258-375 | neither an order shortfall nor a naked long position is there to report if and only if every buy order is protected for what it has filled |
| ProtectionLaws.ProtectionCovers | src/hanalpha/execution/fake_broker.py:284-292 | the protection quantity the snapshot reports per instrument is the sum of covered fills over its buy orders |
| ProtectionLaws.CoveredExactly | src/hanalpha/execution/reconciliation.py:263-275 | with or without children in the snapshot, the run takes an order as covered for the smaller of its protection and its fill |
| ProtectionLaws.ChildrenCover | src/hanalpha/execution/fake_broker.py:299-311 | the stop and the target children of an order in the snapshot each add up to its covered quantity, and are there exactly if it is filled and protected |
| StrandedCancel.CancelStrands | src/hanalpha/execution/control_store.py:1111-1153 | a concrete run: a worker dies between claim and send, the recovery makes the command unknown, its cancel is requested; a reconciliation against the broker, which never saw the order, converges whatever its times and leaves the command unknown |
| BaselineRace.RaceExactly | src/hanalpha/execution/reconciliation.py:300-311 | whichever step of a run took the first baseline, from a snapshot however old, and whatever happened afterwards: a later run against the current broker that does not raise finds a cash mismatch if and only if the cash that moved between that snapshot and the events applied by then is more than a cent, and then of exactly that amount; it converges if and only if it is not and nothing lacks protection |
| BaselineRace.StepDrifts | src/hanalpha/execution/control_store.py:1363-1388 | every single step keeps the baseline, or takes the first one and misjudges the broker by exactly what moved between snapshot and applied events |
| BaselineRace.TimelyRunsNeverDrift | src/hanalpha/execution/control_store.py:1363-1388 | over runs whose baseline snapshots were as new as the applied events the baseline is right to the unit |
| StaleBaseline.StaleBaselineBlocks | src/hanalpha/execution/reconciliation.py:300-311 | a concrete run: a snapshot is taken, a fill arrives and is ingested, the baseline is taken from the old snapshot; then a reconciliation of the current broker, whatever its times, blocks on exactly the price of that fill although the fills agree |
| SecondStart.SecondStartRaises | src/hanalpha/execution/reconciliation.py:166-171 | after any run a reconciliation that succeeded raises when started again with the same times |
| SecondStart.FirstStartSucceeds | src/hanalpha/execution/reconciliation.py:166-171 | a concrete run after which the first start does succeed, whatever its times |
| SystemTheorems.AtMostOneExecution | src/hanalpha/execution/fake_broker.py:98-159 | in every interleaving a client order key is accepted at most once, for the very intent that was staged, and its fills add up to at most its quantity |
| SystemTheorems.TokensNeverDecrease | src/hanalpha/execution/fake_broker.py:459-468 | the fencing tokens of accepted broker writes never decrease over any run |
| SystemTheorems.StaleWorkerCannotWrite | src/hanalpha/execution/worker.py:33-38 | a worker whose token is older than one the broker accepted changes nothing at the broker and dies |
| SystemTheorems.BrokerConserves | src/hanalpha/execution/fake_broker.py:345-439 | in every interleaving broker cash, positions and order fills are the fold of its event log |
| SystemInvariants.RunKeeps | src/hanalpha/execution/worker.py:22-66 | every run keeps the system invariant: store invariant, broker conservation, linked orders and events, backed statuses, sound worker phases, ordered tokens |
| SystemInvariants.StepKeeps | src/hanalpha/execution/worker.py:22-66 | each single transaction of anybody keeps it |
| SystemInvariants.UnguardedFollows | src/hanalpha/execution/control_store.py:321-1361 | store transactions that anyone may run at any time keep the store in step with the broker |
| SystemInvariants.SubmitKeeps | src/hanalpha/execution/worker.py:33-38 | a submit, answered, dropped or refused, keeps the invariant although the store does not know yet |
| SystemInvariants.EventKeeps | src/hanalpha/execution/worker.py:39-40 | storing any broker event, in any order and any number of times, keeps the invariant |
| SystemInvariants.ReconcileKeeps | src/hanalpha/execution/reconciliation.py:122-473 | a reconciliation step keeps the invariant |
| SystemTheorems.RunProtects | src/hanalpha/execution/fake_broker.py:98-159 | without the missing-protection scenario every broker order stays fully protected over any run |
| SystemTheorems.RunCovers | src/hanalpha/execution/fake_broker.py:98-159 | so over such runs no buy order is ever short of protection |
| BrokerModel.NewBrokerInv | src/hanalpha/execution/fake_broker.py:42-81 | a new broker satisfies the conservation laws |
| BrokerModel.SubmitKeepsInv | src/hanalpha/execution/fake_broker.py:98-159 | submission in every scenario keeps cash, positions, order fills, order uniqueness and increasing sequence numbers |
| BrokerModel.FillKeepsInv | src/hanalpha/execution/fake_broker.py:345-392 | a fill, accepted or refused, keeps them |
| BrokerModel.CancelKeepsInv | src/hanalpha/execution/fake_broker.py:178-227 | a cancel, also one that fills first or whose response is dropped, keeps them |
| BrokerModel.CommissionKeepsInv | src/hanalpha/execution/fake_broker.py:229-259 | a commission keeps them |
| BrokerModel.IdsNameEvents | src/hanalpha/execution/fake_broker.py:394-439 | two events of the log with one id are the same event |
| BrokerLaws.SubmitExactly | src/hanalpha/execution/fake_broker.py:98-159 | for every state and scenario: an older token is refused, a repeat is answered with the events there are and moves the fence alone, and a new order is rejected, acknowledged once, acknowledged twice or accepted without an answer, with its row, number, protection and event |
| BrokerLaws.PartialSubmitExactly | src/hanalpha/execution/fake_broker.py:142-152 | a partial-fill submission fills half of the quantity, rounded down but at least one, at the limit price |
| BrokerLaws.EventsForExactly | src/hanalpha/execution/fake_broker.py:113-120 | the answer to a repeat is exactly the events of the log that name the order, in the order of their sequence numbers |
| BrokerLaws.FillExactly | src/hanalpha/execution/fake_broker.py:345-392 | a fill is refused if and only if nothing is asked or left; otherwise the smaller of the two moves the order, the log, the position and the cash together |
| BrokerLaws.FillAtExactly | src/hanalpha/execution/fake_broker.py:161-176 | the market fills a known order by that law at its own price, and an unknown one not at all |
| BrokerLaws.CancelExactly | src/hanalpha/execution/fake_broker.py:178-227 | a cancel cancels what is open and leaves what is filled, is refused under an older token or for an unknown order, and its answer is lost in the drop scenario alone |
| BrokerLaws.LateFillExactly | src/hanalpha/execution/fake_broker.py:195-215 | a fill that overtakes a cancel takes the smaller of what is asked and left at the limit price, and only the rest is cancelled |
| BrokerLaws.CommissionExactly | src/hanalpha/execution/fake_broker.py:229-259 | a commission is refused if negative or for an unknown order, and otherwise paid and logged |
| BrokerLaws.SnapshotExactly | src/hanalpha/execution/fake_broker.py:261-329 | a snapshot shows the cash in every cash field, no accrual, each order once with its fill and the smaller of protection and fill, the positions and the whole log |
| Ledger.FilledInsert | src/hanalpha/execution/control_store.py:2076-2111 | one more event moves the filled total of its own key by its quantity and no other |
| Ledger.CashInsert | src/hanalpha/execution/control_store.py:2076-2111 | one more event moves cash and commissions by its own effect |
| Ledger.BookInsert | src/hanalpha/execution/control_store.py:2076-2111 | one more event moves the position of its instrument by its signed quantity, creating the row at the first fill |
| Ledger.PositionByOrder | src/hanalpha/execution/reconciliation.py:233-243 | summing signed fills order by order or event by event gives the same position |
| StoreRuns.RunKeepsInv | src/hanalpha/execution/control_store.py:321-1388 | every sequence of store transactions keeps the store invariant: capped fills, matching reservations, inbox and log in agreement, books equal to the replay, filed commands, sound gate |
| StoreRuns.ApplyOpKeepsInv | src/hanalpha/execution/control_store.py:321-1388 | each single transaction keeps it |
| StoreRuns.ReplayEqualsIncremental | src/hanalpha/execution/control_store.py:1952-1981 | in every reachable state replaying the log gives the stored positions, cash delta and commissions |
| StoreRuns.IngestionCommutes | src/hanalpha/execution/control_store.py:1155-1222 | two runs that applied the same set of events agree on positions, cash, commissions and every fill, each of which is the smaller of the quantity and the sum over distinct events |
| StoreInvariants.StageKeepsInv | src/hanalpha/execution/control_store.py:321-433 | staging, fresh, repeated or refused, keeps the store invariant |
| StoreInvariants.ClaimKeepsInv | src/hanalpha/execution/control_store.py:740-884 | a claim, refused, expired or granted, keeps it |
| StoreInvariants.IngestKeepsInv | src/hanalpha/execution/control_store.py:1155-1222 | an event, duplicate, orphaned, unpriced or applied, keeps it |
| StoreInvariants.RequestCancelKeepsInv | src/hanalpha/execution/control_store.py:910-983 | a cancel request before or after the broker keeps it |
| StoreInvariants.RecoverKeepsInv | src/hanalpha/execution/control_store.py:1048-1074 | recovering claimed commands keeps it |
| StoreInvariants.FilledSurvivesEvents | src/hanalpha/execution/control_store.py:2113-2142 | no broker event takes an intent out of FILLED and none lowers a fill |
| FilledLaws.LeavesFilledExactly | src/hanalpha/execution/control_store.py:740-1153 | a transaction takes an intent out of FILLED if and only if it recovers its claimed command, marks the command or its cancel unknown, requeues its unknown command, or claims it with an arm admitted or not needed; every other transaction keeps it |
| FilledLaws.FilledExactly | src/hanalpha/execution/control_store.py:740-1153 | an intent stays FILLED through a whole sequence of transactions if and only if none of them is one of those five at that intent |
| LostFill.FilledIsLost | src/hanalpha/execution/control_store.py:1048-1074 | a concrete run: claim, submit, fill and ingest make an intent FILLED, then the worker crashes before marking its command and the recovery makes the intent unknown again, with its fill kept |
| IntentLaws.IntentReservationLaw | src/hanalpha/execution/control_store.py:2059-2074 | in every reachable state quantity consumed equals filled quantity, at most the intent quantity, at most the quantity reserved; FILLED and CONSUMED mean filled in full |
| IntentLaws.FillsNeverShrink | src/hanalpha/execution/control_store.py:1183-1206 | no sequence of store transactions lowers the filled quantity of an intent |
| CommandRuns.HandedOutOnce | src/hanalpha/execution/control_store.py:740-1153 | over every sequence of transactions a submit command is handed out at most once more often than it is requeued |
| CommandRuns.CommandMovesExactly | src/hanalpha/execution/control_store.py:321-1153 | for every store and each of the 22 transactions: where it moves a submit command, if it does, and that a new one appears only by staging or arming, waiting |
| CommandRuns.HandedOutWaits | src/hanalpha/execution/control_store.py:740-884 | only a claim hands out a command, it answers with the stored intent, and the command was waiting |
| CommandRuns.CancelMovesExactly | src/hanalpha/execution/control_store.py:910-1046 | for every store and each transaction: a cancel command appears with the first request for an intent that is not finished, waiting or done at once, and only claims and their outcomes move it |
| CommandRuns.StagedExactly | src/hanalpha/execution/control_store.py:374-433 | a staging that succeeds inserts capsule, reservation and intent where their slots are free, and queues an intent that needs no approval |
| TransactionLaws.StageExactly | src/hanalpha/execution/control_store.py:321-433 | staging succeeds if and only if the documents bind each other, no blocking ticket is open, the account has room and nothing stored contradicts them; a refusal writes nothing |
| TransactionLaws.ApproveExactly | src/hanalpha/execution/control_store.py:435-487 | an approval is given if and only if nothing blocks, the intent waits, its reservation runs and no different approval is there |
| TransactionLaws.RequestExactly | src/hanalpha/execution/control_store.py:910-983 | a cancel request is refused for unknown and finished intents, repeated for known ones, done at once with command and reservation before the broker can have the order, and queued afterwards |
| TransactionLaws.ClaimCancelExactly | src/hanalpha/execution/control_store.py:985-1021 | under a running lease, frozen or not, the oldest waiting cancel is handed out |
| TransactionLaws.IngestExactly | src/hanalpha/execution/control_store.py:1155-1182 | a known event changes nothing, an orphan freezes the store, a fill without a price is refused, and any other is applied |
| TransactionLaws.AppliedExactly | src/hanalpha/execution/control_store.py:1183-1222 | an applied event moves fill, status, broker number and sequence of its own intent, and books position, cash and commission |
| TransactionLaws.ReservationExactly | src/hanalpha/execution/control_store.py:2059-2074 | an applied event releases the reservation with the intent, consumes it with the last fill, in part with an earlier one, and otherwise makes it active |
| Capacity.CapacityExactly | src/hanalpha/execution/control_store.py:351-372 | over every run that stages with one capacity per account, no account ever holds more than its capacity if and only if every released or expired reservation that an event of the run writes back to a holding status still fits the capacity at that moment |
| Capacity.EventFitsExactly | src/hanalpha/execution/control_store.py:2059-2074 | from a sound state within capacity, an event keeps every account within it if and only if the reservation it writes back, if any, still fits, by the same sum that staging checks |
| Capacity.StepFitsExactly | src/hanalpha/execution/control_store.py:321-1388 | the same for every transaction: only an event can break the bound, and exactly when it does not fit |
| Capacity.CapacityHolds | src/hanalpha/execution/control_store.py:351-372 | so the bound holds over every run that reactivates no reservation |
| Capacity.EventRaisesExactly | src/hanalpha/execution/control_store.py:2059-2074 | an event raises what an account holds if and only if it writes one of its released or expired reservations back to a holding status |
| BreachedCapacity.LateFillBreachesCapacity | src/hanalpha/execution/control_store.py:2059-2074 | a concrete run of store, broker and two workers: an order is sent, cancelled at the broker, the freed capacity staged again, and a late fill of the first order leaves the account holding twice its capacity |
| Capacity.StageWithinCapacity | src/hanalpha/execution/control_store.py:351-372 | staging, also an idempotent retry, never exceeds the capacity it was given |
| Capacity.ClaimWithinCapacity | src/hanalpha/execution/control_store.py:843-860 | claiming or expiring never raises what an account holds above its capacity |
| CommandLaws.HeldExactly | src/hanalpha/execution/control_store.py:1254-1268 | what an account holds is the notional of its active, partly consumed and reconciliation-held reservations, and of no other |
| FreezeGate.UnfreezeOpensExactly | src/hanalpha/execution/control_store.py:1341-1361 | after unfreezing, the flag is set if and only if a blocking ticket outside the five reconciliation tickets is open |
| FreezeGate.ResolvedExactly | src/hanalpha/execution/control_store.py:1318-1334 | resolving closes exactly the tickets of its reason and source, and leaves the flag |
| FreezeGate.OpenKeepsGate | src/hanalpha/execution/control_store.py:1284-1316 | opening a ticket keeps that an unresolved blocking ticket implies the flag, and removes no ticket |
| FreezeGate.ResolveKeepsGate | src/hanalpha/execution/control_store.py:1318-1334 | resolving a ticket keeps it |
| FreezeGate.UnfreezeKeepsGate | src/hanalpha/execution/control_store.py:1341-1361 | unfreezing keeps it |
| FreezeGate.OpenBlockingFreezes | src/hanalpha/execution/control_store.py:1284-1316 | opening a blocking ticket raises if and only if none of its reason and source is open but one of the same time was resolved; otherwise a blocking ticket is open afterwards, and the store frozen, if and only if that was so before or no ticket of the same reason and source was open |
| FreezeGate.ReopenFreezes | src/hanalpha/execution/control_store.py:193-198 | a reopened database is frozen if and only if it was frozen or had no startup ticket open |
| FreezeTheorems.BlockingTicketStopsClaims | src/hanalpha/execution/control_store.py:748-752 | in every reachable state an open blocking ticket shows in the flag, and a worker that tries to claim gets nothing and dies |
| FreezeTheorems.StartingFreezes | src/hanalpha/execution/reconciliation.py:166-171 | whatever happened before, starting a reconciliation freezes the store at once |
| FreezeTheorems.ReopeningFreezes | src/hanalpha/execution/control_store.py:193-198 | whatever happened before, reopening the database leaves it frozen |
| FreezeTheorems.NothingClaimedWhileReconciling | src/hanalpha/execution/reconciliation.py:166-171 | from the start of a reconciliation until a step that concludes it, through every crash, restart and retry, the store stays frozen and no command becomes claimed |
| FreezeTheorems.RunKeepsSources | src/hanalpha/execution/control_store.py:1284-1316 | over every run the tickets the code itself opens are blocking |
| Admission.EvaluateQuoteAdmission | src/hanalpha/execution/admission.py:25-96 | evaluation is refused exactly when a reference price comes without side or drift limit; an eligible quote has no reasons against it and its hard expiry lies ahead |
| Admission.EligibilityPersists | src/hanalpha/execution/admission.py:45-96 | a quote eligible at one time is eligible at a later one if and only if that is before the hard expiry |
| Admission.AdmissionExactly | src/hanalpha/execution/admission.py:25-96 | a reason is given if and only if its condition on times, feed, phase, venue, symbol, currency, spread or drift holds, and a quote is eligible if and only if none does and neither of its times has run out |
| Arms.ArmsStaySound | src/hanalpha/execution/control_store.py:596-683 | over every run in which a certificate names one snapshot, the arms of each intent are versioned 1, 2, 3, ..., at most one is ACTIVE, and each was issued on stored evidence that outlives it |
| Arms.UnexpiredArmAdmits | src/hanalpha/execution/control_store.py:769-842 | an unexpired ACTIVE arm under the newest authority passes every re-check of the claim, and its reservation is unexpired |
| Arms.UnexpiredArmAdmitsAfterAnyRun | src/hanalpha/execution/control_store.py:769-842 | the same in every reachable state |
| Arms.UnexpiredArmIsClaimed | src/hanalpha/execution/control_store.py:740-884 | so a lease holder of an unfrozen store is given the command |
| ClaimLaws.ClaimExactly | src/hanalpha/execution/control_store.py:740-884 | for every store, lease, answer of the newest-authority query and time: a command is handed out if and only if the store is not frozen, the lease runs, it is the oldest that is ready, its reservation runs, and it was not approved or its newest ACTIVE arm is unexpired, names the newest stored authority and an eligible stored quote |
| ClaimLaws.ClaimWritesExactly | src/hanalpha/execution/control_store.py:770-884 | what a claim writes when it finds a command: a bad arm is retired with the reason it is refused for, an expired reservation closes command, intent and reservation, and otherwise command, intent and arm are taken |
| ClaimLaws.ClaimRefusedExactly | src/hanalpha/execution/control_store.py:748-781 | the refusals that write nothing: frozen, no running lease, nothing ready, and an approved command without an ACTIVE arm |
| TransactionLaws.ArmExactly | src/hanalpha/execution/control_store.py:489-686 | an arm is written only on an approved intent, a running request, and an authority, a quote, an approval and a reservation that are sound and outlive the moment, and it is written whenever they are; it then rests on exactly this evidence and expires with the first of it |
| TransactionLaws.ArmRefusedExactly | src/hanalpha/execution/control_store.py:518-585 | a stale authority and, under a sound one, an old quote leave a freeze ticket; every other refusal writes nothing |
| TransactionLaws.InstallWritesExactly | src/hanalpha/execution/control_store.py:603-686 | a new arm has a version above all others; the ACTIVE one before it expires if its time has come and is superseded if not |
| Arms.ClaimConsumesOneArm | src/hanalpha/execution/control_store.py:861-881 | claiming the command of an approved intent consumes its one ACTIVE arm, leaves none ACTIVE and touches no other arm; without an approval no arm is touched |
| Consensus.CountIsEarned | src/hanalpha/execution/control_store.py:1440-1547 | after any mix of independent, repeated, non-independent, divergent and late votes, a stored count of k stands for a chain of k accepted votes ending at the newest one, each independently confirming the one before, spanning at least k-1 intervals |
| Consensus.RegisterKeepsInv | src/hanalpha/execution/control_store.py:1440-1547 | one registration keeps that bound for every scope, whichever of several newest votes the query returned |
| Consensus.RunKeepsRegisterInv | src/hanalpha/execution/control_store.py:1440-1547 | and so does every run |
| Consensus.ChainSpans | src/hanalpha/execution/control_store.py:1487-1493 | a chain of k votes spans at least k-1 intervals |
| Consensus.SnapshotConsensus.LatestAccepted | src/hanalpha/execution/control_store.py:1474-1479 | the scan returns an accepted vote of the scope that none is newer than, or none if there is none |
| Consensus.SnapshotConsensus.AuthorityEquivalence | src/hanalpha/execution/control_store.py:1549-1607 | true if and only if state, policy and field names agree and no valuation has moved by more than one unit and more than a four-hundredth of its earlier value |
| Consensus.RegistrationExactly | src/hanalpha/execution/control_store.py:1440-1547 | the disposition and the count of every registration: first, divergent, independent or repeated, with equivalence and independence spelled out in numbers |
| Consensus.RepeatExactly | src/hanalpha/execution/control_store.py:1461-1472 | an observation that was offered before changes nothing and is answered with the count of its scope |
| Consensus.SnapshotConsensus.RegisterSnapshot | src/hanalpha/execution/control_store.py:1440-1547 | one vote against the newest accepted one; the bound on the count is kept |
| AuthoritativeReconciliation.AgreedIsConfirmedExactly | src/hanalpha/execution/control_store.py:1440-1547 | an agreed verdict means that a newest vote ends a chain of at least two for the offered state if and only if the observation is new or its state is the one in the scope's row |
| AuthoritativeReconciliation.ReplayedObservationIsAgreed | src/hanalpha/execution/control_store.py:1459-1470 | a concrete run in which a replayed observation is answered as agreed although no two votes ever confirmed its state |
| AuthoritativeReconciliation.VoteExactly | src/hanalpha/execution/reconciliation.py:44-70 | a call adds exactly one vote, with the identity and the time of the snapshot, unless the snapshot is incomplete, has no identity or was offered before |
| AuthoritativeReconciliation.PromotionConfirmedExactly | src/hanalpha/execution/reconciliation.py:109-120 | the authority that a call writes is confirmed by the newest votes if and only if its observation had not been offered before, or its state is the one in the scope's row |
| AuthoritativeReconciliation.PromotionsConfirmedExactly | src/hanalpha/execution/reconciliation.py:44-120 | over every run: each authority is confirmed when it is written if and only if each promoted observation meets that condition |
| AuthoritativeReconciliation.PromotesExactly | src/hanalpha/execution/reconciliation.py:109-120 | a call writes an authority exactly when it reports convergence, and then that of its snapshot |
| UnconfirmedPromotion.UnconfirmedIsPromoted | src/hanalpha/execution/control_store.py:1459-1470 | a concrete run whose last call writes an authority for a state that no two votes ever confirmed |
| AuthoritativeReconciliation.AuthoritiesAreConfirmed | src/hanalpha/execution/reconciliation.py:44-120 | over every run of authoritative reconciliations and other transactions whose promotions meet that condition, behind every authority stand at least two votes of different sessions and certificates for exactly its state, at least an interval apart, and its components were complete |
| AuthoritativeReconciliation.OnlyAgreementUnfreezes | src/hanalpha/execution/reconciliation.py:52-119 | a report that says frozen leaves the store frozen; an incomplete or not agreed snapshot always freezes it and touches no intent and no command |
| AuthoritativeReconciliation.PromotionIs | src/hanalpha/execution/control_store.py:1609-1668 | exactly a converged snapshot with complete components becomes the authority of its certificate; nothing else changes the authorities |
| AuthoritativeReconciliation.ReconcileKeepsAuthorities | src/hanalpha/execution/reconciliation.py:166-473 | an ordinary reconciliation changes no authority |
| AuthoritativeReconciliation.AuthoritativeReconciler.ReconcileAuthoritative | src/hanalpha/execution/reconciliation.py:44-120 | votes, waits frozen without agreement, otherwise reconciles and promotes or rejects; store and register afterwards are those of the specification |
| AuthoritativeReconciliation.AuthoritativeReconciler.NoteMissingAgreement | src/hanalpha/execution/reconciliation.py:56-107 | opens the ticket, then writes the waiting run and its discrepancy once |
| AuthoritativeReconciliation.AuthoritativeReconciler.Promote | src/hanalpha/execution/reconciliation.py:109-120 | records the authority, or freezes again when a converged snapshot has incomplete components |
| ReconciliationModel.RecordOneMore | src/hanalpha/execution/reconciliation.py:380-425 | recording findings one by one, in any order, gives the table of the whole set |
| ReconciliationModel.OpenRowsAreFindings | src/hanalpha/execution/reconciliation.py:379-448 | whatever open, superseded and resolved rows were there, the rows left open are exactly this run's findings, and no row is lost |
| Reconcilers.OpenRowsAreTheReport | src/hanalpha/execution/reconciliation.py:377-473 | after a whole run the open rows are the report's discrepancies and no two share kind and entity |
| Reconcilers.FindingsAreDistinct | src/hanalpha/execution/reconciliation.py:179-375 | a run reports each kind and entity once |
| Reconcilers.Reconciler.ReconcileSnapshot | src/hanalpha/execution/reconciliation.py:166-473 | the whole run leaves exactly the specified tables and report; when it raises after its start the ticket it opened is still there |
| Reconcilers.Reconciler.RejectIncomplete | src/hanalpha/execution/reconciliation.py:124-165 | an incomplete snapshot is recorded once and freezes the store; nothing is compared |
| Reconcilers.Reconciler.ReconcileAny | src/hanalpha/execution/reconciliation.py:122-473 | the two cases together |
| Reconcilers.Reconciler.OrdersByKey | src/hanalpha/execution/reconciliation.py:172-172 | later orders of a key replace earlier ones |
| Reconcilers.Reconciler.CatchUp | src/hanalpha/execution/reconciliation.py:172-231 | recovers, ingests, settles and requeues as specified, and finds exactly the order discrepancies |
| Reconcilers.Reconciler.IngestEvents | src/hanalpha/execution/reconciliation.py:175-177 | ingests the events of known orders in order and stops where ingestion raises |
| Reconcilers.Reconciler.CompareOrders | src/hanalpha/execution/reconciliation.py:180-207 | settles every unknown command the broker has and finds exactly the broker-only orders and fill mismatches |
| Reconcilers.Reconciler.CompareLocal | src/hanalpha/execution/reconciliation.py:209-231 | requeues what was unknown and is absent, stops if the snapshot is too old, and finds exactly the missing orders |
| Reconcilers.Reconciler.LocalPositions | src/hanalpha/execution/reconciliation.py:233-243 | the accumulated dictionary holds for each instrument the sum of signed fills of its intents |
| Reconcilers.Reconciler.ComparePositions | src/hanalpha/execution/reconciliation.py:244-256 | finds exactly the instruments, local or at the broker, whose positions differ |
| Reconcilers.Reconciler.ChildrenOf | src/hanalpha/execution/reconciliation.py:263-273 | adds up the active stop and target children of one order |
| Reconcilers.Reconciler.CompareProtection | src/hanalpha/execution/reconciliation.py:258-298 | finds exactly the buy orders filled beyond their protection |
| Reconcilers.Reconciler.CompareCash | src/hanalpha/execution/reconciliation.py:300-311 | takes the baseline if there is none, otherwise finds a difference of more than a cent |
| Reconcilers.Reconciler.CompareFields | src/hanalpha/execution/reconciliation.py:313-340 | finds exactly the accrued-cash and base-balance warnings |
| Reconcilers.Reconciler.FindNaked | src/hanalpha/execution/reconciliation.py:341-375 | finds exactly the instruments held beyond their protection |
| Reconcilers.Reconciler.RecordFindings | src/hanalpha/execution/reconciliation.py:380-448 | supersedes, reopens and resolves rows so that the open rows are the findings |
| Reconcilers.Reconciler.ConcludeRun | src/hanalpha/execution/reconciliation.py:377-473 | writes the findings and the status, and freezes on a critical finding or unfreezes |
| ExecutionStore.DurableExecutionStore.OpenFreezeTicket | src/hanalpha/execution/control_store.py:1284-1316 | idempotent while a ticket of the same reason and source is open; recomputes the flag |
| ExecutionStore.DurableExecutionStore.ResolveFreezeTicket | src/hanalpha/execution/control_store.py:1318-1334 | resolves the tickets of a reason and source without lifting the freeze |
| ExecutionStore.DurableExecutionStore.UnfreezeAfterReconciliation | src/hanalpha/execution/control_store.py:1341-1361 | resolves the five reconciliation tickets one by one and recomputes the flag |
| ExecutionStore.DurableExecutionStore.ReopenDatabase | src/hanalpha/execution/control_store.py:193-198 | opening an existing database demands a startup reconciliation again |
| ExecutionStore.DurableExecutionStore.ReservedElsewhere | src/hanalpha/execution/control_store.py:351-365 | the sum loop returns what the account holds in its other reservations |
| ExecutionStore.DurableExecutionStore.CheckStage | src/hanalpha/execution/control_store.py:329-372 | the checks before staging writes, in their order |
| ExecutionStore.DurableExecutionStore.StageDecision | src/hanalpha/execution/control_store.py:321-433 | stages capsule, reservation, intent and command in one transaction and changes nothing when refused |
| ExecutionStore.DurableExecutionStore.EnqueueIntent | src/hanalpha/execution/control_store.py:1983-2016 | queues the command of an intent once |
| ExecutionStore.DurableExecutionStore.ApproveIntent | src/hanalpha/execution/control_store.py:435-487 | approves once, by one actor |
| ExecutionStore.DurableExecutionStore.NewestActive | src/hanalpha/execution/control_store.py:605-610 | finds the newest ACTIVE arm, and no newer one is ACTIVE |
| ExecutionStore.DurableExecutionStore.HighestVersion | src/hanalpha/execution/control_store.py:648-652 | returns the highest version of an intent's arms |
| ExecutionStore.DurableExecutionStore.WriteArm | src/hanalpha/execution/control_store.py:605-683 | retires the ACTIVE arm, appends the next version and queues the intent |
| ExecutionStore.DurableExecutionStore.ArmIntent | src/hanalpha/execution/control_store.py:489-686 | every refusal of arming, those that freeze included, and the arm bound to the earliest upstream expiry |
| ExecutionStore.DurableExecutionStore.RecordQuoteSnapshot | src/hanalpha/execution/control_store.py:1685-1752 | the first quote of an id is kept |
| ExecutionStore.DurableExecutionStore.RecordSnapshotAuthority | src/hanalpha/execution/control_store.py:1609-1668 | promotes exactly a converged snapshot with complete components |
| ExecutionStore.DurableExecutionStore.TakeLease | src/hanalpha/execution/control_store.py:688-726 | takes a free, expired or own lease, and each later holder of a name gets a strictly greater token |
| TransactionLaws.AcquireExactly | src/hanalpha/execution/control_store.py:688-726 | a lease is refused if and only if another owner's runs; otherwise it gets the next token and the asked time |
| ExecutionStore.DurableExecutionStore.ValidateLease | src/hanalpha/execution/control_store.py:728-738 | true exactly for the current, unexpired lease |
| ExecutionStore.DurableExecutionStore.LatestAuthority | src/hanalpha/execution/control_store.py:1670-1683 | returns an authority none is newer than |
| ExecutionStore.DurableExecutionStore.NextCommand | src/hanalpha/execution/control_store.py:760-768 | returns the oldest pending command whose intent and reservation rows exist |
| ExecutionStore.DurableExecutionStore.CheckArm | src/hanalpha/execution/control_store.py:770-842 | judges the newest ACTIVE arm of an approved intent again |
| ExecutionStore.DurableExecutionStore.ClaimNextCommand | src/hanalpha/execution/control_store.py:740-884 | refuses when frozen or fenced, refuses and retires a stale arm, expires with the reservation, or claims |
| ExecutionStore.DurableExecutionStore.MarkUnknown | src/hanalpha/execution/control_store.py:886-901 | the command and its intent become unknown |
| ExecutionStore.DurableExecutionStore.MarkCommandDelivered | src/hanalpha/execution/control_store.py:903-908 | the command becomes delivered |
| ExecutionStore.DurableExecutionStore.RecoverClaimedAsUnknown | src/hanalpha/execution/control_store.py:1048-1074 | the loop turns every claimed command into an unknown one, and no other |
| ExecutionStore.RecoverOneMore | src/hanalpha/execution/control_store.py:1056-1074 | recovering one more command on top of those recovered touches its rows only |
| ExecutionStore.DurableExecutionStore.ResolveUnknownAtBroker | src/hanalpha/execution/control_store.py:1076-1109 | an unknown command whose order exists becomes delivered |
| ExecutionStore.DurableExecutionStore.RequeueUnknownAbsentAtBroker | src/hanalpha/execution/control_store.py:1111-1153 | an unknown command is queued again, but only against a snapshot newer than its claim |
| ExecutionStore.DurableExecutionStore.UpdateReservation | src/hanalpha/execution/control_store.py:2059-2074 | the reservation follows its intent |
| ExecutionStore.DurableExecutionStore.CancelBeforeBroker | src/hanalpha/execution/control_store.py:932-979 | an intent the broker has not seen is cancelled with its command and its reservation |
| ExecutionStore.DurableExecutionStore.RequestCancelOf | src/hanalpha/execution/control_store.py:910-983 | refuses finished intents, cancels unseen ones, queues the cancel of others once |
| ExecutionStore.DurableExecutionStore.NextCancel | src/hanalpha/execution/control_store.py:1001-1008 | returns the oldest pending cancel |
| ExecutionStore.DurableExecutionStore.ClaimNextCancelCommand | src/hanalpha/execution/control_store.py:985-1021 | claims the oldest pending cancel even while frozen, but not with a stale lease |
| ExecutionStore.DurableExecutionStore.MarkCancelCommandUnknown | src/hanalpha/execution/control_store.py:1023-1039 | the cancel and its intent become unknown |
| ExecutionStore.DurableExecutionStore.MarkCancelCommandDelivered | src/hanalpha/execution/control_store.py:1041-1046 | the cancel becomes delivered |
| ExecutionStore.DurableExecutionStore.IngestBrokerEvent | src/hanalpha/execution/control_store.py:1155-1222 | an event is applied once; one of an unknown order is kept as an orphan and freezes the store; a fill without a price is refused |
| ExecutionStore.DurableExecutionStore.UpdateEconomicProjections | src/hanalpha/execution/control_store.py:2076-2111 | adds an event to the position, cash and commission projections |
| ExecutionStore.DurableExecutionStore.RebuildEconomicProjection | src/hanalpha/execution/control_store.py:1952-1981 | the loop over the log, in whatever order, rebuilds the books, which in every sound state are the stored ones |
| ExecutionStore.DurableExecutionStore.SetAccountBaseline | src/hanalpha/execution/control_store.py:1363-1388 | the first baseline is kept |
| ExecutionStore.DurableExecutionStore.ExpectedAccountCash | src/hanalpha/execution/control_store.py:1799-1812 | baseline cash plus what moved since |
| StoreFrames.ClaimWrites | src/hanalpha/execution/control_store.py:740-884 | a claim writes only commands, intents, reservations, arms and notes |
| StoreFrames.IngestWrites | src/hanalpha/execution/control_store.py:1155-1222 | an event writes only the gate, inbox, intents, reservations, books and log |
| FakeBroker.DurableFakeBroker.PublishFence | src/hanalpha/execution/fake_broker.py:93-96 | a token is accepted exactly if none greater was |
| FakeBroker.DurableFakeBroker.EmitEvent | src/hanalpha/execution/fake_broker.py:394-439 | appends the event with the next sequence number |
| FakeBroker.DurableFakeBroker.FillOpenOrder | src/hanalpha/execution/fake_broker.py:345-392 | fills an open order up to its quantity, moving cash, position and status, or refuses |
| FakeBroker.DurableFakeBroker.EventsOf | src/hanalpha/execution/fake_broker.py:441-448 | the events of one order in their order |
| FakeBroker.DurableFakeBroker.SubmitIntent | src/hanalpha/execution/fake_broker.py:98-159 | every scenario of a submission, also the repeated one, with its answer |
| FakeBroker.DurableFakeBroker.FillOrderAt | src/hanalpha/execution/fake_broker.py:161-176 | a market fill |
| FakeBroker.DurableFakeBroker.CancelOrder | src/hanalpha/execution/fake_broker.py:178-227 | a cancel that may fill first, be repeated or lose its response |
| FakeBroker.DurableFakeBroker.ChargeOrder | src/hanalpha/execution/fake_broker.py:229-259 | a commission on an existing order |
| FakeBroker.DurableFakeBroker.TakeSnapshot | src/hanalpha/execution/fake_broker.py:261-325 | the snapshot of orders, positions, protections, children, cash and events |
| FakeBroker.DurableFakeBroker.ListProtections | src/hanalpha/execution/fake_broker.py:284-292 | the loop adds up protection per instrument |
| ExecutionWorkers.ExecutionWorker.PublishToken | src/hanalpha/execution/worker.py:11-20 | a worker publishes its token before anything else, and a stale one does not start |
| ExecutionWorkers.ExecutionWorker.DispatchOnce | src/hanalpha/execution/worker.py:22-42 | one dispatch is a run of the state machine's own labels from the state before to the state after, whichever way it ends |
| ExecutionWorkers.ExecutionWorker.DispatchCancelOnce | src/hanalpha/execution/worker.py:44-66 | the same for a cancel |
| ExecutionWorkers.ExecutionWorker.IngestAnswer | src/hanalpha/execution/worker.py:39-40 | the loop stores the events of the answer one by one, one label each |
| FactReducer.ReduceDependsOnSet | src/hanalpha/execution/ibkr_observer.py:1034-1111 | any two tapes of one session with the same set of facts, in any order and multiplicity, reduce to the same model, conflicts included |
| SharedIds.SetDeterminedExactly | src/hanalpha/execution/ibkr_observer.py:1034-1111 | for any set of facts whose ids hash everything but the time of receipt: all one-session tapes drawn from it are reduced by their set alone if and only if no two facts that the reducer reads share an id with different times |
| SharedIds.PairDependsOnOrder | src/hanalpha/execution/ibkr_observer.py:1045-1048 | every two facts that the reducer reads and that differ only in their time of receipt give different models in the two orders |
| SharedIds.FoldDependsOnKnown | src/hanalpha/execution/ibkr_observer.py:1045-1079 | the fold is fixed by the facts of known type, whatever other facts the tape holds |
| FactReducer.MergeTwice | src/hanalpha/execution/ibkr_observer.py:1113-1149 | merging the same callback again changes nothing and reports no new conflict |
| FactReducer.StepTwice | src/hanalpha/execution/ibkr_observer.py:1049-1079 | a callback repeated right away is routed through the alias table to the same order and absorbed |
| FactReducer.FactsOrdered | src/hanalpha/execution/ibkr_observer.py:1045-1047 | the sort key is a total order on facts whose ids name them |
| FactReducer.ReducedInClosedForm | src/hanalpha/execution/ibkr_observer.py:1045-1071 | an order exists exactly if a callback is routed to it and then has the closed form; a conflict of a field is recorded exactly if some order was reported two different non-zero values |
| RoutingLaws.OwnerExactly | src/hanalpha/execution/ibkr_observer.py:1055-1070 | an order fact belongs to its non-zero perm id, else to its reference, else to what the latest earlier order fact of its client and order number belonged to, and only else to its session slot |
| RoutingLaws.OrdersExactly | src/hanalpha/execution/ibkr_observer.py:1045-1071 | the orders of the read model are exactly the orders that some fact belongs to, each merged from the facts that belong to it in sorted order |
| RoutingLaws.SortKeyExactly | src/hanalpha/execution/ibkr_observer.py:1045-1047 | the sort compares the names of the fact types, then the identity keys, then the ids, each by first difference |
| ReadModelLaws.OtherFieldsExactly | src/hanalpha/execution/ibkr_observer.py:1113-1149 | order number, reference, time of receipt and every other key of an order are those of the last callback that has them, and the average price is one that no later callback with as large a fill replaces |
| ReadModelLaws.RanksExactly | src/hanalpha/execution/ibkr_observer.py:1023-1032 | the eight known statuses are ranked as listed, and every other is below them |
| ReadModelLaws.TablesExactly | src/hanalpha/execution/ibkr_observer.py:1072-1079 | executions, commissions, positions and account values hold exactly the last fact of each key |
| ReadModelLaws.DerivedExactly | src/hanalpha/execution/ibkr_observer.py:1080-1111 | effective executions and commissions, unmatched commissions, missing commissions and corrected roots are exactly what the newest revisions of the stored executions make them |
| ReadModelLaws.RevisionExactly | src/hanalpha/execution/ibkr_observer.py:1158-1166 | an execution id is a root, or a root, a dot and an integer that is its revision |
| ReadModelLaws.DigitsExactly | src/hanalpha/execution/ibkr_observer.py:1163-1164 | the digits of a revision are read in base ten, and anything else is no number |
| ReadModelLaws.SignExactly | src/hanalpha/execution/ibkr_observer.py:1163-1164 | a sign may come first |
| FactReducer.MergeAllClosedForm | src/hanalpha/execution/ibkr_observer.py:1113-1149 | filled is the greatest reported and not negative, remaining the least present, status of maximal rank, each id the least non-zero one |
| FactReducer.ConflictExactly | src/hanalpha/execution/ibkr_observer.py:1135-1144 | folding the callbacks of one order records a conflict for a field exactly if two different non-zero values occurred |
| FactReducer.CorrectionsPartition | src/hanalpha/execution/ibkr_observer.py:1080-1089 | every execution is in exactly one correction list, that of its root |
| FactReducer.EffectiveIsNewest | src/hanalpha/execution/ibkr_observer.py:1087-1091 | the effective execution of a root is its revision with the greatest revision and id |
| FactReducer.LastDot | src/hanalpha/execution/ibkr_observer.py:1158-1166 | finds the last dot of an execution id, or that there is none |
| FactReducer.FactStore.Append | src/hanalpha/execution/ibkr_observer.py:442-480 | the first fact of an id is kept and a repeated one changes nothing |
| FactReducer.FactStore.Facts | src/hanalpha/execution/ibkr_observer.py:482-496 | returns exactly the facts of one session, sorted by time of receipt and then by id, no id twice |
| FactReduction.MergeInto | src/hanalpha/execution/ibkr_observer.py:1113-1149 | merging one callback field by field gives the specified order and adds exactly the new conflicts |
| FactReduction.MergeIds | src/hanalpha/execution/ibkr_observer.py:1135-1144 | the loop over the three ids keeps the least real one of each and reports those that disagree |
| FactReduction.FoldFacts | src/hanalpha/execution/ibkr_observer.py:1045-1079 | the routing loop over the sorted facts, or the error of a missing execution id |
| FactReduction.GroupByRoot | src/hanalpha/execution/ibkr_observer.py:1080-1083 | the grouping loop lists each execution once, under its root |
| FactReduction.PickEffective | src/hanalpha/execution/ibkr_observer.py:1084-1093 | the last loop picks the newest revision of each root |
| FactReduction.ReduceFacts | src/hanalpha/execution/ibkr_observer.py:1034-1111 | the whole reducer, loop by loop, computes the specified model |
| Sorting.SortedUnique | src/hanalpha/execution/ibkr_observer.py:1045-1047 | a sorted sequence is determined by its multiset of elements |
| Sorting.ListingUnique | src/hanalpha/execution/ibkr_observer.py:1045-1047 | a sorted listing without repetitions is determined by its set of elements |
| Sorting.SqueezeDistinct | src/hanalpha/execution/ibkr_observer.py:1045-1047 | sorting brings repetitions together, so dropping adjacent ones drops all |
| GoldenTape.DeliveryTransformsPass | src/hanalpha/execution/golden_tape.py:99-121 | reordered, doubled, delayed and overlapping deliveries of every tape reduce to its baseline |
| GoldenTape.RetainedReducesToBaseline | src/hanalpha/execution/golden_tape.py:183-206 | at every iteration of the greedy removal the retained callbacks reduce to the baseline, and only order statuses were removed |
| GoldenTape.ConditionalResult | src/hanalpha/execution/golden_tape.py:159-180 | the delayed-delivery transform as specified |
| GoldenTape.ApplicableExactly | src/hanalpha/execution/golden_tape.py:99-121 | delayed commissions apply to a tape with a commission, delayed corrections to one with an execution id that ends in an integer above one, and the overlap to one with an open and a completed order |
| GoldenTape.RedundantStatusResult | src/hanalpha/execution/golden_tape.py:183-206 | the greedy loop always passes, and is applicable if and only if something was removed |
| GoldenTape.EvaluateTape | src/hanalpha/execution/golden_tape.py:90-138 | every tape that reduces gets six passing transforms, and PASS exactly if its baseline has no conflicts |
| Backtest.NoLookAhead | src/hanalpha/backtest/engine.py:81-170 | for any strategy that is a function of history and any prices, running on a prefix longer than the warm-up gives exactly the trades of the full run that exit within it and a prefix of its equity curve; a run that fails on a zero price within the prefix fails the same way in full |
| BacktestLoop.StampedPrefixExactly | src/hanalpha/backtest/engine.py:77-77 | the stamped curve of a prefix is a prefix of the full one if and only if there is a warm-up or both end at one time |
| Backtest.BooksBalance | src/hanalpha/backtest/engine.py:81-170 | at every iteration cash plus entry cost and commission of the open position is starting cash plus recorded profits, and never both a position and a pending entry exist |
| Backtest.FlatRunEarnsItsTrades | src/hanalpha/backtest/engine.py:129-148 | a run that ends flat has earned exactly its recorded profits |
| ExitLaws.TradesExactly | src/hanalpha/backtest/engine.py:113-148 | every trade of every run, with any strategy and prices: it was entered at the slipped open of the bar after a buy signal, as large as risk and cash allow, and closed on the first bar that met the stop, the target or 78 bars, at the worse of open and stop, the better of open and target, or the close, slipped down, for the recorded profit |
| ExitLaws.EntryExactly | src/hanalpha/backtest/engine.py:87-112 | an open position was entered like that, and no bar since has met its stop, its target or the time limit |
| ExitLaws.SizeExactly | src/hanalpha/backtest/engine.py:89-99 | the entered quantity is the greatest that the share to risk, the cash and the commission allow |
| ExitLaws.PendingExactly | src/hanalpha/backtest/engine.py:149-165 | an order is pending exactly from a buy signal of the bar before |
| ExitLaws.SignalExactly | src/hanalpha/backtest/engine.py:82-86 | the strategy is shown both series up to the current bar and exactly the catalysts available by its time |
| ExitLaws.MarkExactly | src/hanalpha/backtest/engine.py:166-170 | every point of the curve is cash plus the open position at the close of its bar |
| Backtest.AffordableIsLargest | src/hanalpha/backtest/engine.py:94-99 | the countdown stops at the largest quantity up to the wanted one that cash covers, so an order never exceeds cash |
| BacktestLoop.BacktestEngine.SizeOrder | src/hanalpha/backtest/engine.py:88-97 | the affordability loop terminates at that quantity |
| BacktestLoop.BacktestEngine.ClosePosition | src/hanalpha/backtest/engine.py:110-148 | the exit rules in their order, with cash and trade |
| BacktestLoop.BacktestEngine.Run | src/hanalpha/backtest/engine.py:60-171 | the event loop computes the specified run, its trades and both curves, and fails on misaligned or too few bars and on a division by a zero price |
| Allocation.AllocationLaws | src/hanalpha/execution/e1_scenarios.py:313-376 | accepted cases are eligible and pairwise disjoint in sessions and receipts, the counts are right, and every eligible case conflicts with an accepted one or is accepted |
| Allocation.AcceptedAreMembers | src/hanalpha/execution/e1_scenarios.py:349-368 | accepted evidence lies in the corpora and receipts that were supplied |
| AllocationLaws.AllocationExactly | src/hanalpha/execution/e1_scenarios.py:313-376 | the accepted cases are exactly those that, in the order of their ids, qualify and share no child session and no receipt with one taken before them, and the counts are theirs |
| AllocationLaws.RejectedExactly | src/hanalpha/execution/e1_scenarios.py:340-371 | a case is rejected if and only if it is not taken, and its reasons are exactly its own failures of scope, decision, validity, topology, corpus and receipts and its repetitions of cases taken before it |
| Allocation.PackingBound | src/hanalpha/execution/e1_scenarios.py:313-376 | any pairwise disjoint family of eligible cases is at most m times as large as what was accepted, m bounding the items of an accepted case |
| Allocation.OrderDoesNotMatter | src/hanalpha/execution/e1_scenarios.py:339-339 | the allocation does not depend on the order of the input |
| Allocation.AllocateScenarioCases | src/hanalpha/execution/e1_scenarios.py:313-376 | the one pass over the sorted cases returns the counts and reasons of the specified allocation |
| Allocation.JudgeCase | src/hanalpha/execution/e1_scenarios.py:340-368 | collects exactly the reasons against a case |
| Restore.CurrentIsNeverPartial | src/hanalpha/ops/backup.py:102-165 | wherever restores of a backup are cut off, torn, fail or are restarted, CURRENT is unchanged, with its generation untouched, or names the requested generation with every file of the validated manifest, if and only if every name of the manifest is plain or nothing is ever copied |
| Restore.CurrentIsNeverTorn | src/hanalpha/ops/backup.py:102-165 | for every manifest: CURRENT always resolves and is unchanged, or names the requested generation, copied to its end |
| Restore.NestedBackupEndsPartial | src/hanalpha/ops/backup.py:141-145 | a concrete backup that validates, with one name that has a directory part, whose restore ends with CURRENT at a generation that lacks the file |
| Restore.RestoredExactly | src/hanalpha/ops/backup.py:102-165 | after any interrupted, torn and restarted attempts, running again with overwrite ends with CURRENT at the complete requested generation if and only if the backup validates, CURRENT resolves, nothing else was installed under the requested id, and the names are plain or the generation was there before; a backup that fails one of the first three is refused and the destination is as before the first attempt |
| Restore.OnlySoundIsInstalled | src/hanalpha/ops/backup.py:102-135 | whatever happens on the way, nothing is written unless the manifest is sealed, names every database once, each is there as named and passes the integrity check, CURRENT resolves, and overwriting was permitted where a CURRENT is |
| Restore.InstalledStays | src/hanalpha/ops/backup.py:127-128 | where CURRENT names the requested generation already, nothing is ever written |
| Restore.RunIsSafe | src/hanalpha/ops/backup.py:102-165 | every state on the way is safe, also with tears, exceptions and restarts |
| Restore.Destination.RestoreDatabases | src/hanalpha/ops/backup.py:102-165 | the procedure, file by file, leaves only safe states behind and ends where the specification ends |
| Restore.Destination.CopyFile | src/hanalpha/ops/backup.py:143-147 | copying one file, seen half-written on the way, is safe |
| Restore.Destination.SwitchCurrent | src/hanalpha/ops/backup.py:156-161 | replacing the link is one step that completes the restore |

## Left out

- SQLite, WAL, JSON, schema migration, file locks and threads: a table is a map, a transaction is one step.
- Hash functions: a hash is its content; ids of intents, events, tickets and runs are built from their fields.
- Intents not built by `ExecutionIntent.create`: their id determines their economics in the model.
- Texts and telemetry: delivery timestamps, error texts, heartbeats, the tape of the fake broker, the ledger of naked
  exposures and its durations, the details of a discrepancy beyond the compared amounts, candidate authorities.
- The order of findings in a report: they are a set.
- `rebuild_projection`: it reads every log entry but one kind as a broker event; the economic replay is modelled instead.
- Cash bridges and `advance_account_baseline_epoch`, no-trade records, reality gaps, evidence edges, onboarding,
  preflight, registries, signatures and the vendor adapter: single-branch checks or input and output.
- Injected broker-only orders: the system model only has orders that came from staged intents.
- Failpoints of the store: a crash inside a transaction is the transaction not having happened.
- The broker lists its orders by insertion instead of by the text of their ids; no check depends on it.
- FreezeTheorems.NothingClaimedWhileReconciling: advisory tickets come only from sources the code itself does not use.
- Capacity.CapacityExactly: the capacity is a parameter of each staging in the code; the bound speaks of runs that stage with
  one capacity per account.
- FactReducer.ReduceDependsOnSet: asks that a fact id names one fact, as the tape store guarantees; `SharedIds` treats the rest.
- FactReducer.ReducedInClosedForm: decimals are compared by value and never NaN, and revisions are ASCII digits.
- Arms.ArmsStaySound: asks that a completeness certificate names one snapshot.
- AuthoritativeReconciliation.AuthoritiesAreConfirmed: asks the exact condition of `PromotionsConfirmedExactly`.
- Backtest.NoLookAhead: strategies see bars, benchmark and the catalysts available by the current time through one pure
  function of history; prices are reals of any sign, and a division by zero ends the run.
- Sharpe, Sortino, drawdown and annualisation of the backtest: floating-point statistics.
- Restore.RunIsSafe: the operating system does not reorder writes that were synchronised.
- Different spellings of one path in a manifest, such as a leading `./`: a name is its directory part and its last component.
