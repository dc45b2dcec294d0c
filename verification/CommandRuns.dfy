/** The life of a submit command over every run of the store: which transaction moves it where, and how often it is handed
    out. */
module CommandRuns {
  import opened Admission
  import opened ClaimLaws
  import opened CommandLaws
  import opened ControlModels
  import opened ControlTables
  import opened ExecutionStore
  import opened FreezeGate
  import opened StoreFrames
  import opened StoreRuns
  import opened TransactionLaws

  /** The claim gets as far as deciding about this command. */
  ghost predicate Reaches(db: Tables, lease: ExecutionLease, latest: Option<Digest>, at: Time, k: ClientOrderKey) {
    && !db.gate.frozen && LeaseRuns(db, lease, at) && Oldest(db, k) && Ready(db, k) && Permitted(db, k, latest, at)
  }

  /** Where the transaction moves a command that is there, if it does. */
  ghost function Target(db: Tables, op: StoreOp, k: ClientOrderKey): Option<OutboxStatus>
    requires k in db.outbox
  {
    var status := db.outbox[k].status;
    match op
    case OpClaim(lease, latest, at) =>
      if !Reaches(db, lease, latest, at, k) then None
      else if at < ReservationOf(db, k).expiresAt then Some(OutboxStatus.Claimed) else Some(OutboxStatus.Delivered)
    case OpMarkUnknown(id, _) => if id.key == k && Sent(db, id) then Some(OutboxStatus.Unknown) else None
    case OpMarkDelivered(id) => if id.key == k && Sent(db, id) then Some(OutboxStatus.Delivered) else None
    case OpRequestCancel(id, _) =>
      if id.key == k && CancelledEarly(db, id) && status == OutboxStatus.Pending then Some(OutboxStatus.Delivered) else None
    case OpRecover => if status == OutboxStatus.Claimed then Some(OutboxStatus.Unknown) else None
    case OpResolve(key, _) => if key == k && status == OutboxStatus.Unknown then Some(OutboxStatus.Delivered) else None
    case OpRequeue(key, asOf) =>
      if key == k && status == OutboxStatus.Unknown && (db.outbox[k].claimedAt.None? || db.outbox[k].claimedAt.value < asOf)
      then Some(OutboxStatus.Pending) else None
    case _ => None
  }

  /** The first cancel request of an intent that the broker cannot have yet. */
  predicate CancelledEarly(db: Tables, id: IntentId) {
    Stored(db, id) && Sent(db, id) && id.key !in db.cancels && db.intents[id.key].status in {ApprovalPending, Approved, Outboxed}
  }

  /** Where the transaction leaves a command that is there. */
  ghost predicate Moved(after: Tables, db: Tables, op: StoreOp, k: ClientOrderKey)
    requires k in db.outbox
  {
    && k in after.outbox
    && (Target(db, op, k).Some? ==> after.outbox[k].status == Target(db, op, k).value)
    && (Target(db, op, k).None? ==> after.outbox[k] == db.outbox[k])
  }

  /* ---------- The transactions, one by one ---------- */

  predicate Quiet(op: StoreOp) {
    !(op.OpStage? || op.OpArm? || op.OpClaim? || op.OpMarkUnknown? || op.OpMarkDelivered? || op.OpRequestCancel? || op.OpRecover?
      || op.OpResolve? || op.OpRequeue?)
  }

  lemma QuietKeepsCommands(db: Tables, op: StoreOp)
    requires Quiet(op)
    ensures ApplyOp(db, op).outbox == db.outbox
  {
    if op.OpApprove? || op.OpClaimCancel? || op.OpIngest? {
      BookingKeepsCommands(db, op);
    } else if op.OpMarkCancelUnknown? || op.OpMarkCancelDelivered? {
      CancelsKeepCommands(db, op);
    } else if op.OpReopen? || op.OpOpenTicket? || op.OpResolveTicket? || op.OpUnfreeze? {
      TicketsKeepCommands(db, op);
    } else if op.OpRecordQuote? || op.OpRecordAuthority? {
      RecordsKeepCommands(db, op);
    } else {
      SettingsKeepCommands(db, op);
    }
    hide *;
  }

  lemma BookingKeepsCommands(db: Tables, op: StoreOp)
    requires op.OpApprove? || op.OpClaimCancel? || op.OpIngest?
    ensures ApplyOp(db, op).outbox == db.outbox
  {
    if op.OpApprove? { ApproveWrites(db, op.id, op.actor, op.at); }
    if op.OpClaimCancel? { ClaimCancelWrites(db, op.lease, op.at); }
    if op.OpIngest? { IngestWrites(db, op.event); }
    hide Ingest, Approve, ClaimNextCancel;
  }

  lemma CancelsKeepCommands(db: Tables, op: StoreOp)
    requires op.OpMarkCancelUnknown? || op.OpMarkCancelDelivered?
    ensures ApplyOp(db, op).outbox == db.outbox
  {
  }

  lemma TicketsKeepCommands(db: Tables, op: StoreOp)
    requires op.OpReopen? || op.OpOpenTicket? || op.OpResolveTicket? || op.OpUnfreeze?
    ensures ApplyOp(db, op).outbox == db.outbox && ApplyOp(db, op).cancels == db.cancels
  {
    hide OpenTicket, Unfreeze, ResolveTicket, Reopen;
  }

  lemma RecordsKeepCommands(db: Tables, op: StoreOp)
    requires op.OpRecordQuote? || op.OpRecordAuthority?
    ensures ApplyOp(db, op).outbox == db.outbox && ApplyOp(db, op).cancels == db.cancels
  {
  }

  lemma SettingsKeepCommands(db: Tables, op: StoreOp)
    requires op.OpAcquireLease? || op.OpSetBaseline?
    ensures ApplyOp(db, op).outbox == db.outbox && ApplyOp(db, op).cancels == db.cancels
  {
  }

  /** Queueing leaves the commands there are alone, and appends a waiting one. */
  lemma QueueAppends(db: Tables, intent: ExecutionIntent, k: ClientOrderKey)
    requires Enqueue(db, intent).Ok?
    ensures var after := Enqueue(db, intent).value;
            && (k in db.outbox ==> k in after.outbox && after.outbox[k] == db.outbox[k])
            && (k in after.outbox && k !in db.outbox ==> after.outbox[k].status == OutboxStatus.Pending && k == intent.Key())
  {
    QueueExactly(db, intent);
    hide Enqueue;
  }

  /** What staging and arming do to a command: nothing if it is there, and at most they append it. */
  ghost predicate Appends(after: Tables, db: Tables, k: ClientOrderKey) {
    && (k in db.outbox ==> k in after.outbox && after.outbox[k] == db.outbox[k])
    && (k in after.outbox && k !in db.outbox ==> after.outbox[k].status == OutboxStatus.Pending)
  }

  lemma StageAppends(db: Tables, capsule: DecisionCapsule, reservation: RiskReservation, intent: ExecutionIntent, k: ClientOrderKey)
    ensures Appends(Stage(db, capsule, reservation, intent).db, db, k)
  {
    StageCases(db, capsule, reservation, intent);
    PairLeavesOutbox(db, capsule, reservation, intent);
    hide Stage, WithPair, Enqueue, StageRefusal;
    var paired := WithPair(db, capsule, reservation, intent);
    if Enqueue(paired, intent).Ok? { QueueAppends(paired, intent, k); }
  }

  /** A staging that succeeds, exactly: its rows are inserted, and an intent that needs no approval is queued at once. */
  lemma StagedExactly(db: Tables, capsule: DecisionCapsule, reservation: RiskReservation, intent: ExecutionIntent)
    requires Stage(db, capsule, reservation, intent).result.Ok?
    ensures var after := Stage(db, capsule, reservation, intent).db;
            if intent.status == Approved then exists mid :: Inserts(mid, db, capsule, reservation, intent) && Queues(after, mid, intent)
            else Inserts(after, db, capsule, reservation, intent)
  {
    StageCases(db, capsule, reservation, intent);
    PairExactly(db, capsule, reservation, intent);
    var paired := WithPair(db, capsule, reservation, intent);
    if Enqueue(paired, intent).Ok? { QueueExactly(paired, intent); }
    hide Stage, WithPair, Enqueue, StageRefusal, Inserts, Queues;
  }

  lemma InstallAppends(db: Tables, key: ClientOrderKey, binding: ArmBinding, at: Time, k: ClientOrderKey)
    ensures Appends(InstallArm(db, key, binding, at).db, db, k)
  {
    hide ActiveArm, MaxVersion, Enqueue, WithArmStatus;
    if Enqueue(db, binding.intent).Ok? { QueueAppends(db, binding.intent, k); }
  }

  lemma RefusalKeepsCommands(db: Tables, reason: FreezeReason, at: Time, error: Error)
    ensures FreezeAndRefuse<nat>(db, reason, ApprovalArmSource, at, error).db.outbox == db.outbox
  {
    hide OpenTicket;
  }

  lemma ArmAppends(db: Tables, id: IntentId, request: ArmRequest, at: Time, k: ClientOrderKey)
    ensures Appends(ArmApprovedIntent(db, id, request, at).db, db, k)
  {
    hide EvaluateQuoteAdmission, ArmExpiry, InstallArm, FreezeAndRefuse, AnyBlocking;
    forall reason: FreezeReason, error: Error
      ensures FreezeAndRefuse<nat>(db, reason, ApprovalArmSource, at, error).db.outbox == db.outbox
    {
      RefusalKeepsCommands(db, reason, at, error);
    }
    forall binding
      ensures Appends(InstallArm(db, id.key, binding, at).db, db, k)
    {
      InstallAppends(db, id.key, binding, at, k);
    }
  }

  lemma TakingMoves(db: Tables, key: ClientOrderKey, verdict: ArmVerdict, token: nat, at: Time)
    requires Claimable(db, key) && (verdict.ArmAdmits? ==> verdict.index < |ArmsOf(db, key)|)
    ensures TakeCommand(db, key, verdict, token, at).outbox ==
            db.outbox[key := db.outbox[key].(status := OutboxStatus.Claimed, fencingToken := Some(token), claimedAt := Some(at))]
    ensures ExpireCommand(db, key, at).outbox == db.outbox[key := db.outbox[key].(status := OutboxStatus.Delivered)]
  {
    hide WithArmStatus;
  }

  /** What a claim does to the commands, given its verdict on the one it finds. */
  lemma ClaimedCommands(db: Tables, lease: ExecutionLease, latest: Option<Digest>, at: Time, key: ClientOrderKey)
    requires !db.gate.frozen && LeaseCurrent(db, lease, at) && FirstClaimable(db, db.outboxOrder) == Some(key)
    ensures var after, verdict := ClaimNext(db, lease, latest, at).db.outbox, JudgeArm(db, key, latest, at);
            if verdict.ArmAbsent? || verdict.ArmRefuses? then after == db.outbox
            else if db.reservations[db.intents[key].intent.id.reservationId].reservation.expiresAt <= at
            then after == db.outbox[key := db.outbox[key].(status := OutboxStatus.Delivered)]
            else after == db.outbox[key := db.outbox[key].(status := OutboxStatus.Claimed, fencingToken := Some(lease.fencingToken), claimedAt := Some(at))]
  {
    hide FirstClaimable, JudgeArm, WithArmStatus, LeaseCurrent, TakeCommand, ExpireCommand, HasIntent;
    var verdict := JudgeArm(db, key, latest, at);
    TakingMoves(db, key, verdict, lease.fencingToken, at);
    if verdict.ArmRefuses? {
      var arms := db.arms[key := WithArmStatus(ArmsOf(db, key), verdict.index, ArmExpiredStatus)];
      assert db.(arms := arms).outbox == db.outbox;
    }
  }

  lemma NothingClaimed(db: Tables, lease: ExecutionLease, latest: Option<Digest>, at: Time)
    requires db.gate.frozen || !LeaseCurrent(db, lease, at) || FirstClaimable(db, db.outboxOrder).None?
    ensures ClaimNext(db, lease, latest, at).db == db
  {
    hide FirstClaimable, LeaseCurrent;
  }

  lemma ClaimMoves(db: Tables, lease: ExecutionLease, latest: Option<Digest>, at: Time, k: ClientOrderKey)
    requires k in db.outbox
    ensures Moved(ClaimNext(db, lease, latest, at).db, db, OpClaim(lease, latest, at), k)
  {
    hide ClaimNext, FirstClaimable, LeaseCurrent, LeaseRuns, JudgeArm, Oldest, Permitted;
    LeaseExactly(db, lease, at);
    OldestExactly(db, k);
    var found := FirstClaimable(db, db.outboxOrder);
    if db.gate.frozen || !LeaseCurrent(db, lease, at) || found.None? {
      NothingClaimed(db, lease, latest, at);
    } else {
      ClaimedCommands(db, lease, latest, at, found.value);
      ReadyExactly(db, found.value);
      PermittedExactly(db, found.value, latest, at);
    }
  }

  lemma CancelMoves(db: Tables, id: IntentId, actor: Name, k: ClientOrderKey)
    requires k in db.outbox
    ensures Moved(RequestCancel(db, id, actor).db, db, OpRequestCancel(id, actor), k)
  {
    RequestExactly(db, id, actor);
    hide RequestCancel;
  }

  lemma RecoverMoves(db: Tables, k: ClientOrderKey)
    requires k in db.outbox
    ensures Moved(RecoverClaimed(db, db.outbox.Keys), db, OpRecover, k)
  {
    RecoverExactly(db, k);
    hide RecoverClaimed;
  }

  lemma UnknownMoves(db: Tables, id: IntentId, reason: Name, k: ClientOrderKey)
    requires k in db.outbox
    ensures Moved(MarkSubmissionUnknown(db, id, reason).db, db, OpMarkUnknown(id, reason), k)
  {
    UnknownExactly(db, id, reason);
    hide MarkSubmissionUnknown;
  }

  lemma DeliveredMoves(db: Tables, id: IntentId, k: ClientOrderKey)
    requires k in db.outbox
    ensures Moved(MarkDelivered(db, id), db, OpMarkDelivered(id), k)
  {
    DeliveredExactly(db, id);
    hide MarkDelivered;
  }

  lemma ResolveMoves(db: Tables, key: ClientOrderKey, brokerOrderId: nat, k: ClientOrderKey)
    requires k in db.outbox
    ensures Moved(ResolveUnknown(db, key, brokerOrderId), db, OpResolve(key, brokerOrderId), k)
  {
    ResolveExactly(db, key, brokerOrderId);
    hide ResolveUnknown;
  }

  lemma RequeueMoves(db: Tables, key: ClientOrderKey, asOf: Time, k: ClientOrderKey)
    requires k in db.outbox
    ensures Moved(RequeueUnknown(db, key, asOf).db, db, OpRequeue(key, asOf), k)
  {
    RequeueExactly(db, key, asOf);
    hide RequeueUnknown;
  }

  /** Every transaction, exactly: a command that is there moves as `Target` says and is otherwise left as it is; a command
      that is not there can only be appended, waiting, by a staging or an arming. */
  lemma CommandMovesExactly(db: Tables, op: StoreOp, k: ClientOrderKey)
    ensures k in db.outbox ==> Moved(ApplyOp(db, op), db, op, k)
    ensures k !in db.outbox && k in ApplyOp(db, op).outbox ==>
              (op.OpStage? || op.OpArm?) && ApplyOp(db, op).outbox[k].status == OutboxStatus.Pending
  {
    if Quiet(op) {
      QuietKeepsCommands(db, op);
    } else if op.OpStage? {
      StageAppends(db, op.capsule, op.reservation, op.intent, k);
    } else if op.OpArm? {
      ArmAppends(db, op.id, op.request, op.at, k);
    } else if k in db.outbox {
      CommandMoves(db, op, k);
    } else {
      NothingAppears(db, op, k);
    }
    hide *;
  }

  lemma CommandMoves(db: Tables, op: StoreOp, k: ClientOrderKey)
    requires k in db.outbox && !op.OpStage? && !op.OpArm? && !Quiet(op)
    ensures Moved(ApplyOp(db, op), db, op, k)
  {
    hide Moved, ClaimNext, MarkSubmissionUnknown, MarkDelivered, RequestCancel, RecoverClaimed, ResolveUnknown, RequeueUnknown;
    match op
    case OpClaim(lease, latest, at) => ClaimMoves(db, lease, latest, at, k);
    case OpRequestCancel(id, actor) => CancelMoves(db, id, actor, k);
    case OpRecover => RecoverMoves(db, k);
    case OpMarkUnknown(id, reason) => UnknownMoves(db, id, reason, k);
    case OpMarkDelivered(id) => DeliveredMoves(db, id, k);
    case OpResolve(key, brokerOrderId) => ResolveMoves(db, key, brokerOrderId, k);
    case OpRequeue(key, asOf) => RequeueMoves(db, key, asOf, k);
  }

  lemma NothingAppears(db: Tables, op: StoreOp, k: ClientOrderKey)
    requires k !in db.outbox && !op.OpStage? && !op.OpArm? && !Quiet(op)
    ensures k !in ApplyOp(db, op).outbox
  {
    if op.OpClaim? {
      ClaimAddsNothing(db, op.lease, op.latest, op.at, k);
    } else if op.OpRequestCancel? {
      CancelAddsNothing(db, op.id, op.actor, k);
    } else {
      OutcomeAddsNothing(db, op, k);
    }
    hide ClaimNext, MarkSubmissionUnknown, MarkDelivered, RequestCancel, RecoverClaimed, ResolveUnknown, RequeueUnknown;
  }

  lemma CancelAddsNothing(db: Tables, id: IntentId, actor: Name, k: ClientOrderKey)
    requires k !in db.outbox
    ensures k !in RequestCancel(db, id, actor).db.outbox
  {
    hide UpdatedReservation, Terminal, LocalOnly;
  }

  lemma OutcomeAddsNothing(db: Tables, op: StoreOp, k: ClientOrderKey)
    requires k !in db.outbox && (op.OpMarkUnknown? || op.OpMarkDelivered? || op.OpRecover? || op.OpResolve? || op.OpRequeue?)
    ensures k !in ApplyOp(db, op).outbox
  {
  }

  lemma ClaimAddsNothing(db: Tables, lease: ExecutionLease, latest: Option<Digest>, at: Time, k: ClientOrderKey)
    requires k !in db.outbox
    ensures k !in ClaimNext(db, lease, latest, at).db.outbox
  {
    hide FirstClaimable, JudgeArm, WithArmStatus, LeaseCurrent, TakeCommand, ExpireCommand, HasIntent;
    var found := FirstClaimable(db, db.outboxOrder);
    if found.Some? {
      var verdict := JudgeArm(db, found.value, latest, at);
      TakingAddsNothing(db, found.value, verdict, lease.fencingToken, at, k);
      if verdict.ArmRefuses? {
        var arms := db.arms[found.value := WithArmStatus(ArmsOf(db, found.value), verdict.index, ArmExpiredStatus)];
        assert db.(arms := arms).outbox == db.outbox;
      }
    }
  }

  lemma TakingAddsNothing(db: Tables, key: ClientOrderKey, verdict: ArmVerdict, token: nat, at: Time, k: ClientOrderKey)
    requires k !in db.outbox && Claimable(db, key) && (verdict.ArmAdmits? ==> verdict.index < |ArmsOf(db, key)|)
    ensures k !in TakeCommand(db, key, verdict, token, at).outbox && k !in ExpireCommand(db, key, at).outbox
  {
    hide WithArmStatus;
  }

  /* ---------- Cancel commands ---------- */

  /** Where the transaction moves a cancel command that is there, if it does. */
  ghost function CancelTarget(db: Tables, op: StoreOp, k: ClientOrderKey): Option<OutboxStatus> {
    match op
    case OpClaimCancel(lease, at) => if LeaseRuns(db, lease, at) && OldestCancel(db, k) then Some(OutboxStatus.Claimed) else None
    case OpMarkCancelUnknown(key, _) => if key == k then Some(OutboxStatus.Unknown) else None
    case OpMarkCancelDelivered(key) => if key == k then Some(OutboxStatus.Delivered) else None
    case _ => None
  }

  /** The first request to cancel an intent that is not finished. */
  predicate Requested(db: Tables, op: StoreOp, k: ClientOrderKey) {
    && op.OpRequestCancel? && op.id.key == k && Stored(db, op.id) && k !in db.cancels
    && db.intents[k].status !in {ExecutionStatus.Filled, ExecutionStatus.Cancelled, Rejected, ExecutionStatus.Expired}
  }

  predicate TouchesCancels(op: StoreOp) { op.OpRequestCancel? || op.OpClaimCancel? || op.OpMarkCancelUnknown? || op.OpMarkCancelDelivered? }

  lemma OutcomesKeepCancels(db: Tables, op: StoreOp)
    requires op.OpMarkUnknown? || op.OpMarkDelivered? || op.OpRecover? || op.OpResolve? || op.OpRequeue?
    ensures ApplyOp(db, op).cancels == db.cancels
  {
  }

  lemma BookingKeepsCancels(db: Tables, op: StoreOp)
    requires op.OpApprove? || op.OpIngest? || op.OpClaim?
    ensures ApplyOp(db, op).cancels == db.cancels
  {
    if op.OpApprove? { ApproveWrites(db, op.id, op.actor, op.at); }
    if op.OpIngest? { IngestWrites(db, op.event); }
    if op.OpClaim? { ClaimWrites(db, op.lease, op.latest, op.at); }
    hide Ingest, Approve, ClaimNext;
  }

  lemma StageKeepsCancels(db: Tables, capsule: DecisionCapsule, reservation: RiskReservation, intent: ExecutionIntent)
    ensures Stage(db, capsule, reservation, intent).db.cancels == db.cancels
  {
    StageCases(db, capsule, reservation, intent);
    var paired := WithPair(db, capsule, reservation, intent);
    assert paired.cancels == db.cancels;
    EnqueueTouches(paired, intent);
    hide Stage, WithPair, Enqueue, StageRefusal;
  }

  lemma InstallKeepsCancels(db: Tables, key: ClientOrderKey, binding: ArmBinding, at: Time)
    ensures InstallArm(db, key, binding, at).db.cancels == db.cancels
  {
    EnqueueTouches(db, binding.intent);
    hide ActiveArm, MaxVersion, Enqueue, WithArmStatus;
  }

  lemma RefusalKeepsCancels(db: Tables, reason: FreezeReason, at: Time, error: Error)
    ensures FreezeAndRefuse<nat>(db, reason, ApprovalArmSource, at, error).db.cancels == db.cancels
  {
    hide OpenTicket;
  }

  lemma ArmKeepsCancels(db: Tables, id: IntentId, request: ArmRequest, at: Time)
    ensures ArmApprovedIntent(db, id, request, at).db.cancels == db.cancels
  {
    hide EvaluateQuoteAdmission, ArmExpiry, InstallArm, FreezeAndRefuse, AnyBlocking;
    forall reason: FreezeReason, error: Error
      ensures FreezeAndRefuse<nat>(db, reason, ApprovalArmSource, at, error).db.cancels == db.cancels
    {
      RefusalKeepsCancels(db, reason, at, error);
    }
    forall binding
      ensures InstallArm(db, id.key, binding, at).db.cancels == db.cancels
    {
      InstallKeepsCancels(db, id.key, binding, at);
    }
  }

  lemma OthersKeepCancels(db: Tables, op: StoreOp)
    requires !TouchesCancels(op)
    ensures ApplyOp(db, op).cancels == db.cancels
  {
    if op.OpStage? {
      StageKeepsCancels(db, op.capsule, op.reservation, op.intent);
    } else if op.OpArm? {
      ArmKeepsCancels(db, op.id, op.request, op.at);
    } else if op.OpApprove? || op.OpIngest? || op.OpClaim? {
      BookingKeepsCancels(db, op);
    } else if op.OpMarkUnknown? || op.OpMarkDelivered? || op.OpRecover? || op.OpResolve? || op.OpRequeue? {
      OutcomesKeepCancels(db, op);
    } else if op.OpReopen? || op.OpOpenTicket? || op.OpResolveTicket? || op.OpUnfreeze? {
      TicketsKeepCommands(db, op);
    } else if op.OpRecordQuote? || op.OpRecordAuthority? {
      RecordsKeepCommands(db, op);
    } else {
      SettingsKeepCommands(db, op);
    }
    hide Stage, ArmApprovedIntent;
  }

  /** What a transaction leaves of the cancel command of a key. */
  ghost predicate CancelMoved(after: Tables, db: Tables, op: StoreOp, k: ClientOrderKey) {
    && (k in after.cancels <==> k in db.cancels || Requested(db, op, k))
    && (k in db.cancels ==> after.cancels[k].intentId == db.cancels[k].intentId && after.cancels[k].requestedBy == db.cancels[k].requestedBy)
    && (k in db.cancels && CancelTarget(db, op, k).Some? ==> after.cancels[k].status == CancelTarget(db, op, k).value)
    && (k in db.cancels && CancelTarget(db, op, k).None? ==> after.cancels[k] == db.cancels[k])
    && (Requested(db, op, k) ==>
          after.cancels[k] ==
          CancelRow(op.id, if db.intents[k].status in {ApprovalPending, Approved, Outboxed} then OutboxStatus.Delivered else OutboxStatus.Pending,
                    None, op.actor))
  }

  lemma RequestMovesCancel(db: Tables, id: IntentId, actor: Name, k: ClientOrderKey)
    ensures CancelMoved(RequestCancel(db, id, actor).db, db, OpRequestCancel(id, actor), k)
  {
    RequestExactly(db, id, actor);
    hide RequestCancel;
  }

  lemma ClaimMovesCancel(db: Tables, lease: ExecutionLease, at: Time, k: ClientOrderKey)
    ensures CancelMoved(ClaimNextCancel(db, lease, at).db, db, OpClaimCancel(lease, at), k)
  {
    var found := FirstPendingCancel(db, db.cancelOrder);
    PendingCancelExactly(db, db.cancelOrder, k);
    ClaimCancelExactly(db, lease, at, k);
    if found.Some? {
      PendingCancelExactly(db, db.cancelOrder, found.value);
      ClaimCancelExactly(db, lease, at, found.value);
    }
    hide ClaimNextCancel, FirstPendingCancel, LeaseRuns;
  }

  lemma UnknownMovesCancel(db: Tables, key: ClientOrderKey, reason: Name, k: ClientOrderKey)
    ensures CancelMoved(MarkCancelUnknown(db, key, reason).db, db, OpMarkCancelUnknown(key, reason), k)
  {
    CancelUnknownExactly(db, key, reason);
    hide MarkCancelUnknown, OldestCancel, LeaseRuns, Stored;
  }

  lemma DeliveredMovesCancel(db: Tables, key: ClientOrderKey, k: ClientOrderKey)
    ensures CancelMoved(MarkCancelDelivered(db, key), db, OpMarkCancelDelivered(key), k)
  {
    CancelDeliveredExactly(db, key);
    hide MarkCancelDelivered, OldestCancel, LeaseRuns, Stored;
  }

  /** Every transaction, exactly, for cancel commands: one appears with the first request and waits, or is done at once
      when the broker cannot have the order; claims and their outcomes move it; nothing else does. */
  lemma CancelMovesExactly(db: Tables, op: StoreOp, k: ClientOrderKey)
    ensures CancelMoved(ApplyOp(db, op), db, op, k)
  {
    if !TouchesCancels(op) {
      OthersKeepCancels(db, op);
      hide ApplyOp, OldestCancel, Stored;
    } else if op.OpRequestCancel? {
      RequestMovesCancel(db, op.id, op.actor, k);
      hide CancelMoved, RequestCancel;
    } else if op.OpClaimCancel? {
      ClaimMovesCancel(db, op.lease, op.at, k);
      hide CancelMoved, ClaimNextCancel;
    } else if op.OpMarkCancelUnknown? {
      UnknownMovesCancel(db, op.key, op.reason, k);
      hide CancelMoved, MarkCancelUnknown;
    } else {
      DeliveredMovesCancel(db, op.key, k);
      hide CancelMoved, MarkCancelDelivered;
    }
  }

  /* ---------- Over a run ---------- */

  ghost predicate MovesTo(db: Tables, op: StoreOp, k: ClientOrderKey, to: OutboxStatus) { k in db.outbox && Target(db, op, k) == Some(to) }

  /** How often a run of transactions moves a command to this status. */
  ghost function Times(ops: seq<StoreOp>, k: ClientOrderKey, to: OutboxStatus): nat {
    if ops == [] then 0
    else
      var front, op := ops[..|ops| - 1], ops[|ops| - 1];
      Times(front, k, to) + if MovesTo(RunOps(NEW_TABLES, front), op, k, to) then 1 else 0
  }

  /** A command that waits has one hand-out to spare. */
  ghost predicate Spare(ops: seq<StoreOp>, k: ClientOrderKey) {
    var db := RunOps(NEW_TABLES, ops);
    var waits := if k in db.outbox && db.outbox[k].status == OutboxStatus.Pending then 1 else 0;
    Times(ops, k, OutboxStatus.Claimed) + waits <= Times(ops, k, OutboxStatus.Pending) + if k in db.outbox then 1 else 0
  }

  /** Only a claim hands out a command, it answers with its intent, and the command was waiting. */
  lemma HandedOutWaits(db: Tables, op: StoreOp, k: ClientOrderKey)
    requires MovesTo(db, op, k, OutboxStatus.Claimed)
    ensures db.outbox[k].status == OutboxStatus.Pending && k in db.intents
    ensures op.OpClaim? && ClaimNext(db, op.lease, op.latest, op.at).result == Ok(Some(db.intents[k].intent))
  {
    ClaimExactly(db, op.lease, op.latest, op.at, db.intents[k].intent);
    hide Oldest, Permitted, ClaimNext, LeaseRuns;
  }

  /** Over every run a command is handed out at most once more often than it is requeued. */
  lemma {:induction false} HandedOutOnce(ops: seq<StoreOp>, k: ClientOrderKey)
    ensures Spare(ops, k)
    ensures Times(ops, k, OutboxStatus.Claimed) <= Times(ops, k, OutboxStatus.Pending) + 1
  {
    if ops != [] {
      var front, op := ops[..|ops| - 1], ops[|ops| - 1];
      var db := RunOps(NEW_TABLES, front);
      HandedOutOnce(front, k);
      CommandMovesExactly(db, op, k);
      if MovesTo(db, op, k, OutboxStatus.Claimed) { HandedOutWaits(db, op, k); }
      hide Target, ApplyOp;
    }
  }
}
