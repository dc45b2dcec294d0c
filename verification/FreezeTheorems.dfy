/** The freeze gate over runs: while a blocking ticket is open nothing is claimed, and a reconciliation that
    was started and not concluded keeps the store frozen through every crash, restart and retry. */
module FreezeTheorems {
  import opened Admission
  import opened BrokerModel
  import opened ControlModels
  import opened ControlTables
  import opened Convergence
  import opened ExecutionSystem
  import opened FreezeGate
  import opened ReconciliationModel
  import opened StoreInvariants
  import opened StoreRuns
  import opened SystemInvariants
  import opened SystemTheorems

  function ClaimedKeys(outbox: map<ClientOrderKey, OutboxRow>): set<ClientOrderKey> {
    set k | k in outbox && outbox[k].status == OutboxStatus.Claimed
  }

  predicate IsReconciliationTicket(t: Ticket) {
    !t.resolved && t.severity == Blocking && t.reason == ReconciliationInProgress && t.source == ReconcilerSource
  }

  /** A reconciliation has been started and not concluded. */
  predicate ReconciliationOpen(gate: Gate) { exists id :: id in gate.tickets && IsReconciliationTicket(gate.tickets[id]) }

  /** The code itself only ever opens blocking tickets. */
  predicate SourcesBlock(gate: Gate) {
    forall id :: id in gate.tickets && !gate.tickets[id].source.OtherSource? ==> gate.tickets[id].severity == Blocking
  }

  predicate GateKept(gate: Gate, after: Gate) {
    && (SourcesBlock(gate) ==> SourcesBlock(after))
    && (ReconciliationOpen(gate) ==> ReconciliationOpen(after))
  }

  /** No command is claimed by this step and no open reconciliation is concluded by it. */
  predicate Cautious(db: Tables, after: Tables) {
    ClaimedKeys(after.outbox) <= ClaimedKeys(db.outbox) && GateKept(db.gate, after.gate)
  }

  /** The steps that may conclude a reconciliation. */
  predicate Concludes(move: Label) {
    || move.RunReconciliation?
    || move == StoreStep(OpUnfreeze)
    || move == StoreStep(OpResolveTicket(ReconciliationInProgress, ReconcilerSource))
  }

  /* ---------- Gates ---------- */

  lemma TicketKept(gate: Gate, reason: FreezeReason, source: TicketSource, severity: Severity, at: Time, inTransaction: bool)
    requires severity == Blocking || source.OtherSource?
    ensures var r := OpenTicket(gate, reason, source, severity, at, inTransaction); r.Ok? ==> GateKept(gate, r.value)
  {
    var r := OpenTicket(gate, reason, source, severity, at, inTransaction);
    if r.Ok? && ReconciliationOpen(gate) {
      var id :| id in gate.tickets && IsReconciliationTicket(gate.tickets[id]);
      assert id in r.value.tickets && r.value.tickets[id] == gate.tickets[id];
    }
  }

  lemma ResolveOtherKept(gate: Gate, reason: FreezeReason, source: TicketSource)
    requires (reason, source) != (ReconciliationInProgress, ReconcilerSource)
    ensures GateKept(gate, ResolveTicket(gate, reason, source))
  {
    var after := ResolveTicket(gate, reason, source);
    if ReconciliationOpen(gate) {
      var id :| id in gate.tickets && IsReconciliationTicket(gate.tickets[id]);
      assert id in after.tickets && IsReconciliationTicket(after.tickets[id]);
    }
  }

  lemma ReopenKept(gate: Gate, at: Time)
    requires StartupRow in gate.tickets
    ensures var r := Reopen(gate, at); r.Ok? ==> GateKept(gate, r.value)
  {
    assert gate.(tickets := gate.tickets) == gate;
    TicketKept(gate, StartupReconciliation, TicketSource.System, Blocking, at, false);
  }

  /** Starting a reconciliation leaves its blocking ticket open, whatever was open before. */
  lemma StartOpens(gate: Gate, at: Time)
    requires SourcesBlock(gate)
    ensures var r := OpenTicket(gate, ReconciliationInProgress, ReconcilerSource, Blocking, at, false);
            r.Ok? ==> ReconciliationOpen(r.value) && SourcesBlock(r.value)
  {
    var r := OpenTicket(gate, ReconciliationInProgress, ReconcilerSource, Blocking, at, false);
    if r.Ok? {
      if HasUnresolved(gate.tickets, ReconciliationInProgress, ReconcilerSource) {
        var id :| id in gate.tickets && !gate.tickets[id].resolved && gate.tickets[id].reason == ReconciliationInProgress
                  && gate.tickets[id].source == ReconcilerSource;
        assert IsReconciliationTicket(gate.tickets[id]);
      } else {
        var id := TicketDigest(ReconciliationInProgress, ReconcilerSource, at);
        assert id in r.value.tickets && IsReconciliationTicket(r.value.tickets[id]);
      }
    }
  }

  lemma OpenBlocks(gate: Gate)
    requires ReconciliationOpen(gate) && GateInv(gate)
    ensures AnyBlocking(gate.tickets) && gate.frozen
  {
  }

  /** A source that only opens blocking tickets shows in the flag. */
  lemma OpenSourceFreezes(gate: Gate, reason: FreezeReason, source: TicketSource)
    requires GateInv(gate) && SourcesBlock(gate) && HasUnresolved(gate.tickets, reason, source) && !source.OtherSource?
    ensures gate.frozen
  {
    var id :| id in gate.tickets && !gate.tickets[id].resolved && gate.tickets[id].reason == reason && gate.tickets[id].source == source;
    assert AnyBlocking(gate.tickets);
  }

  lemma UnfreezeKeepsSources(gate: Gate)
    requires SourcesBlock(gate)
    ensures SourcesBlock(Unfreeze(gate))
  {
  }

  /* ---------- Store steps ---------- */

  lemma SameIsCautious(db: Tables, after: Tables)
    requires after.outbox == db.outbox && after.gate == db.gate
    ensures Cautious(db, after)
  {
  }

  lemma RowIsCautious(db: Tables, after: Tables, k: ClientOrderKey, row: OutboxRow)
    requires after.gate == db.gate && after.outbox == db.outbox[k := row] && row.status != OutboxStatus.Claimed
    ensures Cautious(db, after)
  {
  }

  lemma GateIsCautious(db: Tables, gate: Gate)
    requires GateKept(db.gate, gate)
    ensures Cautious(db, db.(gate := gate))
  {
  }

  lemma CautiousTwice(a: Tables, b: Tables, c: Tables)
    requires Cautious(a, b) && Cautious(b, c)
    ensures Cautious(a, c)
  {
    hide SourcesBlock, ReconciliationOpen, ClaimedKeys;
  }

  lemma EnqueueIsCautious(db: Tables, intent: ExecutionIntent)
    ensures var r := Enqueue(db, intent); r.Ok? ==> Cautious(db, r.value)
  {
    hide Cautious;
    var r := Enqueue(db, intent);
    if r.Ok? {
      SameIsCautious(db, db.(intents := r.value.intents));
      if intent.Key() !in db.outbox { RowIsCautious(db, r.value, intent.Key(), OutboxRow(intent, Pending, None, None)); }
    }
  }

  lemma StageIsCautious(db: Tables, capsule: DecisionCapsule, reservation: RiskReservation, intent: ExecutionIntent)
    ensures Cautious(db, Stage(db, capsule, reservation, intent).db)
  {
    hide Cautious, Enqueue, HeldNotional;
    SameIsCautious(db, db);
    var paired := WithPair(db, capsule, reservation, intent);
    SameIsCautious(db, paired);
    EnqueueIsCautious(paired, intent);
    var r := Enqueue(paired, intent);
    if r.Ok? { CautiousTwice(db, paired, r.value); }
  }

  lemma ArmIsCautious(db: Tables, id: IntentId, request: ArmRequest, at: Time)
    ensures Cautious(db, ArmApprovedIntent(db, id, request, at).db)
  {
    hide Cautious, Enqueue, OpenTicket, Eligible, EvaluateQuoteAdmission, ArmExpiry, GateKept;
    SameIsCautious(db, db);
    BlockingTicketIsCautious(db, BrokerAuthorityStale, ApprovalArmSource, at);
    BlockingTicketIsCautious(db, MarketQuoteStale, ApprovalArmSource, at);
    var r := ArmApprovedIntent(db, id, request, at);
    if r.result.Ok? {
      var intent := db.intents[id.key].intent;
      EnqueueIsCautious(db, intent);
      var queued := Enqueue(db, intent);
      if queued.Ok? {
        SameIsCautious(queued.value, queued.value.(arms := r.db.arms));
        CautiousTwice(db, queued.value, queued.value.(arms := r.db.arms));
      }
    }
  }

  lemma BlockingTicketIsCautious(db: Tables, reason: FreezeReason, source: TicketSource, at: Time)
    ensures var r := OpenTicket(db.gate, reason, source, Blocking, at, true); r.Ok? ==> Cautious(db, db.(gate := r.value))
  {
    hide OpenTicket, GateKept, Cautious;
    var r := OpenTicket(db.gate, reason, source, Blocking, at, true);
    TicketKept(db.gate, reason, source, Blocking, at, true);
    if r.Ok? { GateIsCautious(db, r.value); }
  }

  lemma RecoverIsCautious(db: Tables)
    ensures Cautious(db, RecoverClaimed(db, db.outbox.Keys))
  {
  }

  lemma GateOpIsCautious(db: Tables, op: StoreOp)
    requires StoreInv(db) && Unguarded(op) && !Concludes(StoreStep(op))
    requires op.OpReopen? || op.OpOpenTicket? || op.OpResolveTicket? || op.OpUnfreeze?
    ensures Cautious(db, ApplyOp(db, op))
  {
    hide StoreInv, GateKept, OpenTicket, ResolveTicket, Reopen, Cautious;
    SameIsCautious(db, db);
    match op
    case OpReopen(at) =>
      StoreRuns.SoundGate(db);
      ReopenKept(db.gate, at);
      var r := Reopen(db.gate, at);
      if r.Ok? { GateIsCautious(db, r.value); }
    case OpOpenTicket(reason, source, severity, at) =>
      TicketKept(db.gate, reason, source, severity, at, false);
      var r := OpenTicket(db.gate, reason, source, severity, at, false);
      if r.Ok? { GateIsCautious(db, r.value); }
    case OpResolveTicket(reason, source) =>
      ResolveOtherKept(db.gate, reason, source);
      GateIsCautious(db, ResolveTicket(db.gate, reason, source));
  }

  lemma RowOpIsCautious(db: Tables, op: StoreOp)
    requires op.OpApprove? || op.OpRecordQuote? || op.OpRecordAuthority? || op.OpAcquireLease? || op.OpMarkCancelUnknown? || op.OpMarkCancelDelivered?
    ensures Cautious(db, ApplyOp(db, op))
  {
    hide Cautious;
    SameIsCautious(db, ApplyOp(db, op));
  }

  lemma MarkUnknownIsCautious(db: Tables, id: IntentId, reason: Name)
    ensures Cautious(db, MarkSubmissionUnknown(db, id, reason).db)
  {
    hide Cautious;
    SameIsCautious(db, db);
    if HasCommand(db, id) {
      RowIsCautious(db, MarkSubmissionUnknown(db, id, reason).db, id.key, db.outbox[id.key].(status := Unknown));
    }
  }

  lemma MarkDeliveredIsCautious(db: Tables, id: IntentId)
    ensures Cautious(db, MarkDelivered(db, id))
  {
    hide Cautious;
    SameIsCautious(db, db);
    if HasCommand(db, id) {
      RowIsCautious(db, MarkDelivered(db, id), id.key, db.outbox[id.key].(status := OutboxStatus.Delivered));
    }
  }

  lemma RequestCancelIsCautious(db: Tables, id: IntentId, actor: Name)
    ensures Cautious(db, RequestCancel(db, id, actor).db)
  {
    hide Cautious, UpdatedReservation, Bump;
    SameIsCautious(db, db);
    var k := id.key;
    if HasIntent(db, id) && k !in db.cancels && !Terminal(db.intents[k].status) {
      var after := RequestCancel(db, id, actor).db;
      if LocalOnly(db.intents[k].status) && HasCommand(db, id) && db.outbox[k].status == Pending {
        RowIsCautious(db, after, k, db.outbox[k].(status := OutboxStatus.Delivered));
      } else {
        SameIsCautious(db, after);
      }
    }
  }

  lemma RequeueIsCautious(db: Tables, k: ClientOrderKey, asOf: Time)
    ensures Cautious(db, RequeueUnknown(db, k, asOf).db)
  {
    hide Cautious, Bump;
    SameIsCautious(db, db);
    if Unresolved(db, k) && !TooOld(db, k, asOf) {
      RowIsCautious(db, RequeueUnknown(db, k, asOf).db, k, db.outbox[k].(status := Pending, fencingToken := None, claimedAt := None));
    }
  }

  lemma OpIsCautious(db: Tables, op: StoreOp)
    requires StoreInv(db) && Unguarded(op) && !Concludes(StoreStep(op))
    ensures Cautious(db, ApplyOp(db, op))
  {
    hide Cautious, StoreInv, Stage, Approve, ArmApprovedIntent, MarkSubmissionUnknown, RequestCancel;
    hide MarkCancelUnknown, MarkCancelDelivered, RecoverClaimed, RequeueUnknown;
    hide RecordQuote, RecordAuthority, AcquireLease, Reopen, OpenTicket, ResolveTicket, Unfreeze;
    match op
    case OpStage(capsule, reservation, intent) => StageIsCautious(db, capsule, reservation, intent);
    case OpArm(id, request, at) => ArmIsCautious(db, id, request, at);
    case OpMarkUnknown(id, reason) => MarkUnknownIsCautious(db, id, reason);
    case OpRequestCancel(id, actor) => RequestCancelIsCautious(db, id, actor);
    case OpRequeue(key, asOf) => RequeueIsCautious(db, key, asOf);
    case OpRecover => RecoverIsCautious(db);
    case OpReopen(_) => GateOpIsCautious(db, op);
    case OpOpenTicket(_, _, _, _) => GateOpIsCautious(db, op);
    case OpResolveTicket(_, _) => GateOpIsCautious(db, op);
    case OpUnfreeze => GateOpIsCautious(db, op);
    case _ => RowOpIsCautious(db, op);
  }

  /* ---------- System steps ---------- */

  /** A frozen store refuses the claim, and the worker that tried gives up. */
  lemma FrozenRefuses(s: System, w: Name, latest: Option<Digest>, at: Time)
    requires StoreInv(s.db) && AnyBlocking(s.db.gate.tickets) && w in s.workers
    ensures AfterClaim(s, w, latest, at) == Dead(s, w)
  {
    hide IntentsMatch, ReservationsMatch, InboxMatches, BooksMatch, DecisionsUnique, OutboxFiled, CancelsFiled;
    hide FirstClaimable, JudgeArm;
  }

  lemma WorkerIsCautious(s: System, startingCash: Money, move: Label, w: Name)
    requires SystemInv(s, startingCash) && w in s.workers && (AnyBlocking(s.db.gate.tickets) || !move.WorkerClaim?)
    ensures Cautious(s.db, AfterWorker(s, move, w).db)
  {
    hide SystemInv, Cautious, StoreInv, BrokerInv, InStep, StatusesBacked, Submit, Cancel, LeaseCurrent;
    hide ClaimNext, AnyBlocking;
    hide MarkDelivered, MarkSubmissionUnknown, MarkCancelDelivered, MarkCancelUnknown, Ingest, ClaimNextCancel;
    BrokerOf(s, startingCash);
    SameIsCautious(s.db, s.db);
    match move
    case WorkerClaim(_, latest, at) => FrozenRefuses(s, w, latest, at);
    case WorkerClaimCancel(_, at) => CancelClaimIsCautious(s, w, at);
    case WorkerIngest(_) => IngestIsCautious(s, startingCash, w);
    case WorkerFinish(_, reason) => FinishIsCautious(s, w, reason);
    case _ =>
  }

  lemma CancelClaimIsCautious(s: System, w: Name, at: Time)
    requires w in s.workers
    ensures Cautious(s.db, AfterClaimCancel(s, w, at).db)
  {
    hide Cautious, FirstPendingCancel, LeaseCurrent;
    SameIsCautious(s.db, AfterClaimCancel(s, w, at).db);
  }

  lemma EventIsCautious(s: System, startingCash: Money, e: BrokerEvent)
    requires SystemInv(s, startingCash) && e in s.broker.events
    ensures Cautious(s.db, Ingest(s.db, e).db)
  {
    hide StoreInv, BrokerInv, StatusesBacked, Ingest, EventSet, WorkersSound, TokensOrdered, Cautious;
    IngestNext(s.db, s.broker, startingCash, e);
    SameIsCautious(s.db, Ingest(s.db, e).db);
  }

  lemma IngestIsCautious(s: System, startingCash: Money, w: Name)
    requires SystemInv(s, startingCash) && w in s.workers
    ensures Cautious(s.db, AfterIngest(s, w).db)
  {
    hide SystemInv, Ingest, Cautious;
    SameIsCautious(s.db, s.db);
    var phase := s.workers[w].phase;
    if (phase.SubmitAnswered? || phase.CancelAnswered?) && phase.answer != [] {
      WorkerIsSound(s, startingCash, w);
      EventIsCautious(s, startingCash, phase.answer[0]);
    }
  }

  lemma FinishIsCautious(s: System, w: Name, reason: Name)
    requires w in s.workers
    ensures Cautious(s.db, AfterFinish(s, w, reason).db)
  {
    hide Cautious, MarkSubmissionUnknown, MarkCancelUnknown, MarkCancelDelivered, MarkDelivered;
    SameIsCautious(s.db, s.db);
    match s.workers[w].phase
    case SubmitAnswered(intent, _) => MarkDeliveredIsCautious(s.db, intent.id);
    case SubmitDropped(intent) => MarkUnknownIsCautious(s.db, intent.id, reason);
    case CancelAnswered(intent, _) => CancelMarksAreCautious(s.db, intent.Key(), reason);
    case CancelDropped(intent) => CancelMarksAreCautious(s.db, intent.Key(), reason);
    case _ =>
  }

  lemma CancelMarksAreCautious(db: Tables, k: ClientOrderKey, reason: Name)
    ensures Cautious(db, MarkCancelDelivered(db, k)) && Cautious(db, MarkCancelUnknown(db, k, reason).db)
  {
    hide Cautious;
    SameIsCautious(db, MarkCancelDelivered(db, k));
    SameIsCautious(db, MarkCancelUnknown(db, k, reason).db);
  }

  lemma StepIsCautious(s: System, startingCash: Money, move: Label)
    requires SystemInv(s, startingCash) && (AnyBlocking(s.db.gate.tickets) || !move.WorkerClaim?) && !Concludes(move)
    ensures Cautious(s.db, Step(s, move).db)
  {
    hide SystemInv, Cautious, AfterWorker, StoreInv, BrokerInv, InStep, StatusesBacked, ApplyOp, Ingest;
    hide ResolveUnknown, SetBaseline, AnyBlocking, RunStarted, RunRecorded, FillAt, ChargeCommission, AdvanceFence;
    hide Unguarded, Snapshot, EventSet;
    BrokerOf(s, startingCash);
    SameIsCautious(s.db, s.db);
    match move
    case StoreStep(op) => if Unguarded(op) { OpIsCautious(s.db, op); }
    case DeliverEvent(index) => if index < |s.broker.events| { EventIsCautious(s, startingCash, s.broker.events[index]); }
    case ResolveAtBroker(key) => if key in s.broker.orders { ResolveIsCautious(s.db, key, s.broker.orders[key].orderId); }
    case TakeSnapshot(_) =>
    case TakeBaseline(sight) => if InSight(s, sight) { BaselineIsCautious(s.db, SnapshotOf(s.held[sight])); }
    case StartRun(run) => ReportIsCautious(s.db, run, {});
    case RecordRun(run, found) => ReportIsCautious(s.db, run, found);
    case QueueScenario(_) =>
    case MarketFill(_, _, _, _) =>
    case MarketCommission(_, _, _) =>
    case StartWorker(w, lease) =>
    case CrashWorker(w) =>
    case RunReconciliation(_, _) =>
    case _ => if move.w in s.workers { WorkerIsCautious(s, startingCash, move, move.w); }
  }

  lemma ReportIsCautious(db: Tables, run: RunId, found: set<Discrepancy>)
    ensures Cautious(db, RunStarted(db, run)) && Cautious(db, RunRecorded(db, run, found))
  {
    hide Cautious, Lifecycles, StatusOf;
    SameIsCautious(db, RunStarted(db, run));
    SameIsCautious(db, RunRecorded(db, run, found));
  }

  lemma ResolveIsCautious(db: Tables, k: ClientOrderKey, brokerOrderId: nat)
    ensures Cautious(db, ResolveUnknown(db, k, brokerOrderId))
  {
    hide Cautious;
    SameIsCautious(db, db);
    if Unresolved(db, k) {
      RowIsCautious(db, ResolveUnknown(db, k, brokerOrderId), k, db.outbox[k].(status := OutboxStatus.Delivered));
    }
  }

  lemma BaselineIsCautious(db: Tables, snapshot: BrokerSnapshot)
    ensures Cautious(db, SetBaseline(db, snapshot))
  {
    hide Cautious;
    SameIsCautious(db, SetBaseline(db, snapshot));
  }

  lemma TakingKeepsGate(db: Tables, k: ClientOrderKey, verdict: ArmVerdict, token: nat, at: Time)
    requires Claimable(db, k) && (verdict.ArmAdmits? ==> verdict.index < |ArmsOf(db, k)|)
    ensures TakeCommand(db, k, verdict, token, at).gate == db.gate && ExpireCommand(db, k, at).gate == db.gate
  {
  }

  lemma ClaimNextKeepsGate(db: Tables, lease: ExecutionLease, latest: Option<Digest>, at: Time)
    ensures ClaimNext(db, lease, latest, at).db.gate == db.gate
  {
    hide FirstClaimable, JudgeArm, LeaseCurrent, TakeCommand, ExpireCommand;
    var found := FirstClaimable(db, db.outboxOrder);
    if found.Some? { TakingKeepsGate(db, found.value, JudgeArm(db, found.value, latest, at), lease.fencingToken, at); }
  }

  lemma ClaimKeepsGate(s: System, w: Name, latest: Option<Digest>, at: Time)
    requires w in s.workers
    ensures AfterClaim(s, w, latest, at).db.gate == s.db.gate
  {
    hide ClaimNext;
    ClaimNextKeepsGate(s.db, s.workers[w].lease, latest, at);
  }

  lemma ResolveKeepsSources(gate: Gate, reason: FreezeReason, source: TicketSource)
    requires SourcesBlock(gate)
    ensures SourcesBlock(ResolveTicket(gate, reason, source))
  {
  }

  lemma TicketKeepsSources(gate: Gate, reason: FreezeReason, source: TicketSource, at: Time)
    requires SourcesBlock(gate)
    ensures var r := OpenTicket(gate, reason, source, Blocking, at, false); r.Ok? ==> SourcesBlock(r.value)
  {
  }

  lemma ReconcileKeepsSources(db: Tables, b: Broker, h: Broker, startingCash: Money, asOf: Time, at: Time)
    requires InStep(db, b, startingCash) && SourcesBlock(db.gate) && BrokerInv(h, startingCash) && Earlier(h, b) && BrokerListed(h)
    ensures var r := Reconcile(db, Snapshot(h, asOf), at); r.Ok? ==> SourcesBlock(r.value.0.gate)
  {
    hide StoreInv, BrokerInv, InStep, OpenTicket, Findings, Conclude, CaughtUp, AnyClaimTooNew, Settled, SourcesBlock;
    hide OrderTruths, Protections, ProtectionOrders, RecoverClaimed, KeepsIntents, Linked, Grounded, EventSet, SetBaseline, Earlier;
    var r := Reconcile(db, Snapshot(h, asOf), at);
    if r.Ok? {
      StartKeepsStep(db, b, startingCash, RunId(asOf, at), at);
      TicketKeepsSources(db.gate, ReconciliationInProgress, ReconcilerSource, at);
      var gate := OpenTicket(db.gate, ReconciliationInProgress, ReconcilerSource, Blocking, at, false).value;
      var started := db.(gate := gate, runs := db.runs[RunId(asOf, at) := Running]);
      CatchesUp(started, b, h, startingCash, asOf);
      var caughtUp := CaughtUp(started, Snapshot(h, asOf)).value;
      ConcludeKeepsSources(SetBaseline(caughtUp, Snapshot(h, asOf)), RunId(asOf, at),
                           Findings(RecoverClaimed(started, started.outbox.Keys).intents, caughtUp, Snapshot(h, asOf)), at);
      BaselineGate(caughtUp, Snapshot(h, asOf));
    }
  }

  lemma BaselineGate(db: Tables, snapshot: BrokerSnapshot)
    ensures SetBaseline(db, snapshot).gate == db.gate
  {
  }

  lemma ConcludeKeepsSources(db: Tables, run: RunId, found: set<Discrepancy>, at: Time)
    requires Conclude(db, run, found, at).Ok?
    ensures SourcesBlock(db.gate) ==> SourcesBlock(Conclude(db, run, found, at).value.0.gate)
  {
    hide OpenTicket, Unfreeze, SourcesBlock, StatusOf, Lifecycles;
    if SourcesBlock(db.gate) {
      UnfreezeKeepsSources(db.gate);
      TicketKeepsSources(db.gate, CriticalDiscrepancy, ReconcilerSource, at);
    }
  }

  lemma ReconciliationKeepsSources(s: System, startingCash: Money, sight: nat, at: Time)
    requires SystemInv(s, startingCash) && SourcesBlock(s.db.gate)
    ensures SourcesBlock(AfterReconcile(s, sight, at).db.gate)
  {
    hide SystemInv, SourcesBlock, Reconcile, Snapshot, StoreInv, BrokerInv, InStep, StatusesBacked, Earlier;
    BrokerOf(s, startingCash);
    if InSight(s, sight) {
      SightOf(s, startingCash, sight);
      ReconcileKeepsSources(s.db, s.broker, s.held[sight].broker, startingCash, s.held[sight].asOf, at);
    }
  }

  lemma UnfreezingKeepsSources(s: System, op: StoreOp)
    requires SourcesBlock(s.db.gate) && (op.OpUnfreeze? || op.OpResolveTicket?)
    ensures SourcesBlock(AfterStore(s, op).db.gate)
  {
    hide SourcesBlock, Unfreeze, ResolveTicket;
    UnfreezeKeepsSources(s.db.gate);
    if op.OpResolveTicket? { ResolveKeepsSources(s.db.gate, op.freeze, op.source); }
  }

  lemma ConclusionKeepsSources(s: System, startingCash: Money, move: Label)
    requires SystemInv(s, startingCash) && SourcesBlock(s.db.gate) && Concludes(move)
    ensures SourcesBlock(Step(s, move).db.gate)
  {
    hide SystemInv, SourcesBlock, AfterReconcile, AfterStore;
    match move
    case RunReconciliation(sight, at) => ReconciliationKeepsSources(s, startingCash, sight, at);
    case StoreStep(op) => UnfreezingKeepsSources(s, op);
  }

  lemma StepKeepsSources(s: System, startingCash: Money, move: Label)
    requires SystemInv(s, startingCash) && SourcesBlock(s.db.gate)
    ensures SourcesBlock(Step(s, move).db.gate)
  {
    hide SystemInv, SourcesBlock, Step, ReconciliationOpen, Concludes;
    if Concludes(move) {
      ConclusionKeepsSources(s, startingCash, move);
    } else if move.WorkerClaim? {
      ClaimStepGate(s, move);
    } else {
      StepIsCautious(s, startingCash, move);
    }
  }

  lemma ClaimStepGate(s: System, move: Label)
    requires move.WorkerClaim?
    ensures Step(s, move).db.gate == s.db.gate
  {
    hide AfterClaim;
    if move.w in s.workers { ClaimKeepsGate(s, move.w, move.latest, move.at); }
  }

  /* ---------- The theorems ---------- */

  /** In every reachable state an open blocking ticket shows in the frozen flag and no worker can claim. */
  lemma BlockingTicketStopsClaims(startingCash: Money, moves: seq<Label>, w: Name, latest: Option<Digest>, at: Time)
    requires AnyBlocking(Run(NewSystem(startingCash), moves).db.gate.tickets)
    ensures var s := Run(NewSystem(startingCash), moves);
            && s.db.gate.frozen
            && (w in s.workers && s.workers[w].phase == Idle ==> Step(s, WorkerClaim(w, latest, at)) == Dead(s, w))
  {
    hide Run, SystemInv, InStep, StoreInv, BrokerInv, StatusesBacked, AnyBlocking;
    RunKeeps(startingCash, moves);
    var s := Run(NewSystem(startingCash), moves);
    BrokerOf(s, startingCash);
    FrozenFlag(s.db);
    if w in s.workers { FrozenRefuses(s, w, latest, at); }
  }

  lemma FrozenFlag(db: Tables)
    requires StoreInv(db) && AnyBlocking(db.gate.tickets)
    ensures db.gate.frozen
  {
    hide IntentsMatch, ReservationsMatch, InboxMatches, BooksMatch, DecisionsUnique, OutboxFiled, CancelsFiled;
  }

  lemma {:induction false} RunKeepsSources(startingCash: Money, moves: seq<Label>)
    ensures SourcesBlock(Run(NewSystem(startingCash), moves).db.gate)
  {
    if moves != [] {
      hide Step, SystemInv, SourcesBlock, NewSystem;
      RunKeeps(startingCash, moves[..|moves| - 1]);
      RunKeepsSources(startingCash, moves[..|moves| - 1]);
      StepKeepsSources(Run(NewSystem(startingCash), moves[..|moves| - 1]), startingCash, moves[|moves| - 1]);
    }
  }

  /** Whatever happened before, starting a reconciliation freezes the store at once. */
  lemma StartingFreezes(startingCash: Money, moves: seq<Label>, at: Time)
    ensures var r := OpenTicket(Run(NewSystem(startingCash), moves).db.gate, ReconciliationInProgress, ReconcilerSource, Blocking, at, false);
            r.Ok? ==> r.value.frozen && ReconciliationOpen(r.value)
  {
    hide Run, SystemInv, OpenTicket, ReconciliationOpen, SourcesBlock, GateInv, StoreInv, BrokerInv, InStep;
    hide StatusesBacked, NewSystem;
    var s := Run(NewSystem(startingCash), moves);
    RunKeeps(startingCash, moves);
    BrokerOf(s, startingCash);
    StoreRuns.SoundGate(s.db);
    RunKeepsSources(startingCash, moves);
    var gate := s.db.gate;
    StartOpens(gate, at);
    OpenKeepsGate(gate, ReconciliationInProgress, ReconcilerSource, Blocking, at, false);
    var r := OpenTicket(gate, ReconciliationInProgress, ReconcilerSource, Blocking, at, false);
    if r.Ok? { OpenBlocks(r.value); }
  }

  /** Whatever happened before, reopening the database leaves it frozen. */
  lemma ReopeningFreezes(startingCash: Money, moves: seq<Label>, at: Time)
    ensures var r := Reopen(Run(NewSystem(startingCash), moves).db.gate, at); r.Ok? ==> r.value.frozen
  {
    hide Run, SystemInv, Reopen, SourcesBlock, GateInv, StoreInv, BrokerInv, InStep, StatusesBacked, NewSystem;
    var s := Run(NewSystem(startingCash), moves);
    RunKeeps(startingCash, moves);
    BrokerOf(s, startingCash);
    StoreRuns.SoundGate(s.db);
    RunKeepsSources(startingCash, moves);
    ReopenFreezes(s.db.gate, at);
    if HasUnresolved(s.db.gate.tickets, StartupReconciliation, TicketSource.System) {
      OpenSourceFreezes(s.db.gate, StartupReconciliation, TicketSource.System);
    }
  }

  /** From the start of a reconciliation until a step that concludes it, whatever else happens in between, the
      store stays frozen and no command becomes claimed. */
  lemma {:induction false} NothingClaimedWhileReconciling(startingCash: Money, before: seq<Label>, during: seq<Label>)
    requires ReconciliationOpen(Run(NewSystem(startingCash), before).db.gate)
    requires forall m :: m in during ==> !Concludes(m)
    ensures var s, t := Run(NewSystem(startingCash), before), Run(NewSystem(startingCash), before + during);
            && t.db.gate.frozen && ReconciliationOpen(t.db.gate)
            && ClaimedKeys(t.db.outbox) <= ClaimedKeys(s.db.outbox)
    decreases |during|
  {
    hide Step, SystemInv, StoreInv, BrokerInv, InStep, StatusesBacked, NewSystem, AnyBlocking, GateInv;
    hide ReconciliationOpen, ClaimedKeys, Concludes, SourcesBlock;
    var all := before + during;
    if during == [] {
      assert all == before;
    } else {
      var rest := during[..|during| - 1];
      NothingClaimedWhileReconciling(startingCash, before, rest);
      assert all[..|all| - 1] == before + rest && all[|all| - 1] == during[|during| - 1];
      var s := Run(NewSystem(startingCash), before + rest);
      RunKeeps(startingCash, before + rest);
      BrokerOf(s, startingCash);
      StoreRuns.SoundGate(s.db);
      OpenBlocks(s.db.gate);
      StepIsCautious(s, startingCash, during[|during| - 1]);
    }
    RunKeeps(startingCash, all);
    var t := Run(NewSystem(startingCash), all);
    BrokerOf(t, startingCash);
    StoreRuns.SoundGate(t.db);
    OpenBlocks(t.db.gate);
  }
}
