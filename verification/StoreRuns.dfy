/** Runs of the execution store: any sequence of its transactions, in any order and with any arguments.
    Retries, duplicates, crashes between transactions and restarts are all sequences of this kind. */
module StoreRuns {
  import opened ControlModels
  import opened ControlTables
  import opened FreezeGate
  import opened Ledger
  import opened StoreInvariants

  datatype StoreOp =
    | OpReopen(at: Time)
    | OpStage(capsule: DecisionCapsule, reservation: RiskReservation, intent: ExecutionIntent)
    | OpApprove(id: IntentId, actor: Name, at: Time)
    | OpRecordQuote(quote: QuoteSnapshot)
    | OpRecordAuthority(certificate: Digest, row: AuthorityRow, status: RunStatus)
    | OpArm(id: IntentId, request: ArmRequest, at: Time)
    | OpAcquireLease(name: Name, owner: Name, at: Time, ttl: int)
    | OpClaim(lease: ExecutionLease, latest: Option<Digest>, at: Time)
    | OpMarkUnknown(id: IntentId, reason: Name)
    | OpMarkDelivered(id: IntentId)
    | OpRequestCancel(id: IntentId, actor: Name)
    | OpClaimCancel(lease: ExecutionLease, at: Time)
    | OpMarkCancelUnknown(key: ClientOrderKey, reason: Name)
    | OpMarkCancelDelivered(key: ClientOrderKey)
    | OpRecover
    | OpResolve(key: ClientOrderKey, brokerOrderId: nat)
    | OpRequeue(key: ClientOrderKey, asOf: Time)
    | OpIngest(event: BrokerEvent)
    | OpSetBaseline(snapshot: BrokerSnapshot)
    | OpOpenTicket(freeze: FreezeReason, source: TicketSource, severity: Severity, at: Time)
    | OpResolveTicket(freeze: FreezeReason, source: TicketSource)
    | OpUnfreeze

  /** The tables after one transaction; a refused transaction leaves what it has committed. */
  ghost function ApplyOp(db: Tables, op: StoreOp): Tables {
    match op
    case OpReopen(at) => var r := Reopen(db.gate, at); if r.Ok? then db.(gate := r.value) else db
    case OpStage(capsule, reservation, intent) => Stage(db, capsule, reservation, intent).db
    case OpApprove(id, actor, at) => Approve(db, id, actor, at).db
    case OpRecordQuote(quote) => RecordQuote(db, quote)
    case OpRecordAuthority(certificate, row, status) => RecordAuthority(db, certificate, row, status).db
    case OpArm(id, request, at) => ArmApprovedIntent(db, id, request, at).db
    case OpAcquireLease(name, owner, at, ttl) => AcquireLease(db, name, owner, at, ttl).db
    case OpClaim(lease, latest, at) => ClaimNext(db, lease, latest, at).db
    case OpMarkUnknown(id, reason) => MarkSubmissionUnknown(db, id, reason).db
    case OpMarkDelivered(id) => MarkDelivered(db, id)
    case OpRequestCancel(id, actor) => RequestCancel(db, id, actor).db
    case OpClaimCancel(lease, at) => ClaimNextCancel(db, lease, at).db
    case OpMarkCancelUnknown(key, reason) => MarkCancelUnknown(db, key, reason).db
    case OpMarkCancelDelivered(key) => MarkCancelDelivered(db, key)
    case OpRecover => RecoverClaimed(db, db.outbox.Keys)
    case OpResolve(key, brokerOrderId) => ResolveUnknown(db, key, brokerOrderId)
    case OpRequeue(key, asOf) => RequeueUnknown(db, key, asOf).db
    case OpIngest(event) => Ingest(db, event).db
    case OpSetBaseline(snapshot) => SetBaseline(db, snapshot)
    case OpOpenTicket(reason, source, severity, at) =>
      var r := OpenTicket(db.gate, reason, source, severity, at, false); if r.Ok? then db.(gate := r.value) else db
    case OpResolveTicket(reason, source) => db.(gate := ResolveTicket(db.gate, reason, source))
    case OpUnfreeze => db.(gate := Unfreeze(db.gate))
  }

  ghost function RunOps(db: Tables, ops: seq<StoreOp>): Tables {
    if ops == [] then db else ApplyOp(RunOps(db, ops[..|ops| - 1]), ops[|ops| - 1])
  }

  lemma NewTablesInv()
    ensures StoreInv(NEW_TABLES)
  {
    EmptyLedger();
    NewGateInv();
  }

  lemma SoundGate(db: Tables)
    requires StoreInv(db)
    ensures GateInv(db.gate)
  {
  }

  lemma GateOpsKeepInv(db: Tables, op: StoreOp)
    requires StoreInv(db) && (op.OpReopen? || op.OpOpenTicket? || op.OpResolveTicket? || op.OpUnfreeze?)
    ensures StoreInv(ApplyOp(db, op))
  {
    hide StoreInv, OpenTicket, Unfreeze, ResolveTicket, GateInv;
    SoundGate(db);
    match op
    case OpReopen(at) =>
      ReopenKeepsGate(db.gate, at);
      var r := Reopen(db.gate, at);
      if r.Ok? { GateStepKeepsInv(db, r.value); }
    case OpOpenTicket(reason, source, severity, at) => TicketKeepsInv(db, reason, source, severity, at, false);
    case OpResolveTicket(reason, source) =>
      ResolveKeepsGate(db.gate, reason, source);
      GateStepKeepsInv(db, ResolveTicket(db.gate, reason, source));
    case OpUnfreeze =>
      UnfreezeKeepsGate(db.gate);
      GateStepKeepsInv(db, Unfreeze(db.gate));
  }

  lemma QuoteKeepsInv(db: Tables, quote: QuoteSnapshot)
    requires StoreInv(db)
    ensures StoreInv(RecordQuote(db, quote))
  {
    hide StoreInv;
    UntouchedKeepsInv(db, RecordQuote(db, quote));
  }

  lemma BaselineKeepsInv(db: Tables, snapshot: BrokerSnapshot)
    requires StoreInv(db)
    ensures StoreInv(SetBaseline(db, snapshot))
  {
    hide StoreInv;
    UntouchedKeepsInv(db, SetBaseline(db, snapshot));
  }

  lemma AuthorityKeepsInv(db: Tables, certificate: Digest, row: AuthorityRow, status: RunStatus)
    requires StoreInv(db)
    ensures StoreInv(RecordAuthority(db, certificate, row, status).db)
  {
    hide StoreInv;
    var r := RecordAuthority(db, certificate, row, status);
    if r.db != db { UntouchedKeepsInv(db, r.db); }
  }

  lemma LeaseKeepsInv(db: Tables, name: Name, owner: Name, at: Time, ttl: int)
    requires StoreInv(db)
    ensures StoreInv(AcquireLease(db, name, owner, at, ttl).db)
  {
    hide StoreInv;
    var r := AcquireLease(db, name, owner, at, ttl);
    if r.result.Ok? { UntouchedKeepsInv(db, r.db); }
  }

  lemma ApplyOpKeepsInv(db: Tables, op: StoreOp)
    requires StoreInv(db)
    ensures StoreInv(ApplyOp(db, op))
  {
    hide StoreInv, Stage, Approve, ArmApprovedIntent, ClaimNext, MarkSubmissionUnknown, MarkDelivered, RequestCancel;
    hide ClaimNextCancel, MarkCancelUnknown, MarkCancelDelivered, RecoverClaimed, ResolveUnknown;
    hide RequeueUnknown, Ingest;
    hide RecordQuote, RecordAuthority, AcquireLease, SetBaseline, Reopen, OpenTicket, ResolveTicket, Unfreeze;
    match op
    case OpReopen(_) => GateOpsKeepInv(db, op);
    case OpOpenTicket(_, _, _, _) => GateOpsKeepInv(db, op);
    case OpResolveTicket(_, _) => GateOpsKeepInv(db, op);
    case OpUnfreeze => GateOpsKeepInv(db, op);
    case OpStage(capsule, reservation, intent) => StageKeepsInv(db, capsule, reservation, intent);
    case OpApprove(id, actor, at) => ApproveKeepsInv(db, id, actor, at);
    case OpArm(id, request, at) => ArmKeepsInv(db, id, request, at);
    case OpClaim(lease, latest, at) => ClaimKeepsInv(db, lease, latest, at);
    case OpMarkUnknown(id, reason) => MarkUnknownKeepsInv(db, id, reason);
    case OpMarkDelivered(id) => MarkDeliveredKeepsInv(db, id);
    case OpRequestCancel(id, actor) => RequestCancelKeepsInv(db, id, actor);
    case OpClaimCancel(lease, at) => ClaimCancelKeepsInv(db, lease, at);
    case OpMarkCancelUnknown(key, reason) => MarkCancelUnknownKeepsInv(db, key, reason);
    case OpMarkCancelDelivered(key) => MarkCancelDeliveredKeepsInv(db, key);
    case OpRecover => RecoverKeepsInv(db, db.outbox.Keys);
    case OpResolve(key, brokerOrderId) => ResolveKeepsInv(db, key, brokerOrderId);
    case OpRequeue(key, asOf) => RequeueKeepsInv(db, key, asOf);
    case OpIngest(event) => IngestKeepsInv(db, event);
    case OpRecordQuote(quote) => QuoteKeepsInv(db, quote);
    case OpSetBaseline(snapshot) => BaselineKeepsInv(db, snapshot);
    case OpRecordAuthority(certificate, row, status) => AuthorityKeepsInv(db, certificate, row, status);
    case OpAcquireLease(name, owner, at, ttl) => LeaseKeepsInv(db, name, owner, at, ttl);
  }

  /** Every reachable store state satisfies the invariant. */
  lemma {:induction false} RunKeepsInv(db: Tables, ops: seq<StoreOp>)
    requires StoreInv(db)
    ensures StoreInv(RunOps(db, ops))
  {
    hide StoreInv, ApplyOp;
    if ops != [] {
      RunKeepsInv(db, ops[..|ops| - 1]);
      ApplyOpKeepsInv(RunOps(db, ops[..|ops| - 1]), ops[|ops| - 1]);
    }
  }

  /** Replaying the log from scratch reproduces the incrementally kept books, in every reachable state. */
  lemma ReplayEqualsIncremental(ops: seq<StoreOp>)
    ensures var db := RunOps(NEW_TABLES, ops);
            && db.positions == PositionBook(db.applied)
            && db.cashDelta == CashFlow(db.applied)
            && db.commissions == TotalCommission(db.applied)
  {
    NewTablesInv();
    RunKeepsInv(NEW_TABLES, ops);
    hide PositionBook, CashFlow, TotalCommission, RunOps;
  }

  /** Two runs that applied the same set of events agree on all economics, whatever else happened and in
      whatever order and multiplicity the events arrived. */
  lemma IngestionCommutes(left: seq<StoreOp>, right: seq<StoreOp>)
    requires RunOps(NEW_TABLES, left).applied == RunOps(NEW_TABLES, right).applied
    ensures var l, r := RunOps(NEW_TABLES, left), RunOps(NEW_TABLES, right);
            && l.positions == r.positions && l.cashDelta == r.cashDelta && l.commissions == r.commissions
            && forall k :: k in l.intents && k in r.intents ==>
                 l.intents[k].filled == r.intents[k].filled == Min(k.quantity, FilledQuantity(l.applied, k))
  {
    NewTablesInv();
    RunKeepsInv(NEW_TABLES, left);
    RunKeepsInv(NEW_TABLES, right);
    hide PositionBook, CashFlow, TotalCommission, RunOps, FilledQuantity, ReservationsMatch, GateInv;
    var l, r := RunOps(NEW_TABLES, left), RunOps(NEW_TABLES, right);
    forall k | k in l.intents && k in r.intents
      ensures l.intents[k].filled == r.intents[k].filled == Min(k.quantity, FilledQuantity(l.applied, k))
    {
      assert IntentMatches(k, l.intents[k], l.applied) && IntentMatches(k, r.intents[k], r.applied);
    }
  }
}
