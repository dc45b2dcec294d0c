/** What every step of the control plane keeps: store and broker stay in step, paused workers stay sound,
    and the broker's accepted tokens never decrease. */
module SystemInvariants {
  import opened Admission
  import opened BrokerModel
  import opened ControlModels
  import opened ControlTables
  import opened Convergence
  import opened ExecutionSystem
  import opened FreezeGate
  import opened Ledger
  import opened ReconciliationModel
  import opened StoreInvariants
  import opened StoreRuns

  /* ---------- The invariant ---------- */

  predicate Staged(intents: map<ClientOrderKey, IntentRow>, intent: ExecutionIntent) {
    intent.Key() in intents && intents[intent.Key()].intent == intent
  }

  predicate FromBroker(answer: seq<BrokerEvent>, events: seq<BrokerEvent>) { forall e :: e in answer ==> e in events }

  /** What a paused worker may still rely on. */
  predicate PhaseSound(intents: map<ClientOrderKey, IntentRow>, b: Broker, phase: Phase) {
    match phase
    case SubmitClaimed(intent) => Staged(intents, intent)
    case SubmitValidated(intent) => Staged(intents, intent)
    case SubmitAnswered(intent, answer) => intent.Key() in b.orders && FromBroker(answer, b.events)
    case SubmitDropped(intent) => intent.Key() in b.orders
    case CancelAnswered(_, answer) => FromBroker(answer, b.events)
    case _ => true
  }

  predicate WorkersSound(intents: map<ClientOrderKey, IntentRow>, b: Broker, workers: map<Name, Worker>) {
    forall w :: w in workers ==> PhaseSound(intents, b, workers[w].phase)
  }

  /** Accepted tokens never decrease, and none is above the published one. */
  predicate TokensOrdered(tokens: seq<nat>, highest: nat) {
    && (forall i, j :: 0 <= i < j < |tokens| ==> tokens[i] <= tokens[j])
    && (forall i :: 0 <= i < |tokens| ==> tokens[i] <= highest)
  }

  /** Every snapshot shows the broker as it once was. */
  ghost predicate SightsSound(held: seq<Sight>, b: Broker, startingCash: Money) {
    forall i :: 0 <= i < |held| ==> BrokerInv(held[i].broker, startingCash) && Earlier(held[i].broker, b)
  }

  ghost predicate SystemInv(s: System, startingCash: Money) {
    && InStep(s.db, s.broker, startingCash)
    && WorkersSound(s.db.intents, s.broker, s.workers)
    && TokensOrdered(s.tokens, s.broker.highestToken)
    && SightsSound(s.held, s.broker, startingCash)
  }

  /* ---------- Store steps ---------- */

  /** A store step that adds no events: intents are kept and their statuses stay backed. */
  predicate Follows(db: Tables, after: Tables, orders: map<ClientOrderKey, BrokerOrder>) {
    && KeepsIntents(db.intents, after.intents) && StatusesBacked(after, orders)
    && after.applied == db.applied && after.inbox == db.inbox && after.baseline == db.baseline
  }

  lemma FollowKeepsStep(db: Tables, after: Tables, b: Broker, startingCash: Money)
    requires InStep(db, b, startingCash) && StoreInv(after) && Follows(db, after, b.orders)
    ensures InStep(after, b, startingCash)
  {
    hide StoreInv, BrokerInv, StatusBacked, StatusesBacked, EventSet;
  }

  /** A step that rewrites at most one intent and one command, both under the same key. */
  predicate RewritesAt(db: Tables, after: Tables, k: ClientOrderKey) {
    && (after.intents == db.intents || (k in after.intents && after.intents == db.intents[k := after.intents[k]]))
    && (k in db.intents ==> k in after.intents && after.intents[k].intent == db.intents[k].intent)
    && (after.outbox == db.outbox || (k in after.outbox && after.outbox == db.outbox[k := after.outbox[k]]))
    && after.applied == db.applied && after.inbox == db.inbox && after.baseline == db.baseline
  }

  lemma RewriteFollows(db: Tables, after: Tables, k: ClientOrderKey, orders: map<ClientOrderKey, BrokerOrder>)
    requires StatusesBacked(db, orders) && RewritesAt(db, after, k)
    requires k in after.intents ==> StatusBacked(after, orders, k)
    ensures Follows(db, after, orders)
  {
    forall j | j in after.intents
      ensures StatusBacked(after, orders, j)
    {
      if j != k { assert StatusBacked(db, orders, j); }
    }
  }

  lemma UntouchedFollows(db: Tables, after: Tables, orders: map<ClientOrderKey, BrokerOrder>)
    requires StatusesBacked(db, orders) && after.intents == db.intents && after.outbox == db.outbox
    requires after.applied == db.applied && after.inbox == db.inbox && after.baseline == db.baseline
    ensures Follows(db, after, orders)
  {
    SameCommands(db, after, orders);
  }

  lemma FollowTwice(a: Tables, b: Tables, c: Tables, orders: map<ClientOrderKey, BrokerOrder>)
    requires Follows(a, b, orders) && Follows(b, c, orders)
    ensures Follows(a, c, orders)
  {
    hide StatusesBacked;
  }

  lemma BackedAt(db: Tables, orders: map<ClientOrderKey, BrokerOrder>, k: ClientOrderKey)
    requires StatusesBacked(db, orders) && k in db.intents
    ensures StatusBacked(db, orders, k)
  {
  }

  lemma EnqueueFollows(db: Tables, intent: ExecutionIntent, orders: map<ClientOrderKey, BrokerOrder>)
    requires StatusesBacked(db, orders)
    ensures var r := Enqueue(db, intent); r.Ok? ==> Follows(db, r.value, orders)
  {
    hide StatusesBacked, Follows;
    var r := Enqueue(db, intent);
    if r.Ok? {
      var k := intent.Key();
      if k in db.intents { BackedAt(db, orders, k); }
      RewriteFollows(db, r.value, k, orders);
    }
  }

  lemma PairFollows(db: Tables, capsule: DecisionCapsule, reservation: RiskReservation, intent: ExecutionIntent, orders: map<ClientOrderKey, BrokerOrder>)
    requires StatusesBacked(db, orders) && StageBinds(capsule, reservation, intent)
    ensures Follows(db, WithPair(db, capsule, reservation, intent), orders)
  {
    hide StatusesBacked, Follows;
    var k := intent.Key();
    if k in db.intents { BackedAt(db, orders, k); }
    RewriteFollows(db, WithPair(db, capsule, reservation, intent), k, orders);
  }

  lemma StageFollows(db: Tables, capsule: DecisionCapsule, reservation: RiskReservation, intent: ExecutionIntent, orders: map<ClientOrderKey, BrokerOrder>)
    requires StatusesBacked(db, orders)
    ensures Follows(db, Stage(db, capsule, reservation, intent).db, orders)
  {
    hide StatusesBacked, Follows, HeldNotional, WithPair, Enqueue;
    UntouchedFollows(db, db, orders);
    if StageBinds(capsule, reservation, intent) {
      PairFollows(db, capsule, reservation, intent, orders);
      var paired := WithPair(db, capsule, reservation, intent);
      FollowsBacked(db, paired, orders);
      EnqueueFollows(paired, intent, orders);
      var r := Enqueue(paired, intent);
      if r.Ok? { FollowTwice(db, paired, r.value, orders); }
    }
  }

  lemma FollowsBacked(db: Tables, after: Tables, orders: map<ClientOrderKey, BrokerOrder>)
    requires Follows(db, after, orders)
    ensures StatusesBacked(after, orders)
  {
  }

  lemma ApproveFollows(db: Tables, id: IntentId, actor: Name, at: Time, orders: map<ClientOrderKey, BrokerOrder>)
    requires StatusesBacked(db, orders)
    ensures Follows(db, Approve(db, id, actor, at).db, orders)
  {
    hide StatusesBacked, Follows;
    UntouchedFollows(db, db, orders);
    var r := Approve(db, id, actor, at);
    if r.result.Ok? { RewriteFollows(db, r.db, id.key, orders); }
  }

  lemma GateFollows(db: Tables, gate: Gate, orders: map<ClientOrderKey, BrokerOrder>)
    requires StatusesBacked(db, orders)
    ensures Follows(db, db.(gate := gate), orders)
  {
    hide StatusesBacked, Follows;
    UntouchedFollows(db, db.(gate := gate), orders);
  }

  lemma ArmFollows(db: Tables, id: IntentId, request: ArmRequest, at: Time, orders: map<ClientOrderKey, BrokerOrder>)
    requires StatusesBacked(db, orders)
    ensures Follows(db, ArmApprovedIntent(db, id, request, at).db, orders)
  {
    hide StatusesBacked, Follows, OpenTicket, Eligible, EvaluateQuoteAdmission, ArmExpiry, Enqueue;
    UntouchedFollows(db, db, orders);
    TicketFollows(db, BrokerAuthorityStale, ApprovalArmSource, Blocking, at, true, orders);
    TicketFollows(db, MarketQuoteStale, ApprovalArmSource, Blocking, at, true, orders);
    var r := ArmApprovedIntent(db, id, request, at);
    if r.result.Ok? {
      var intent := db.intents[id.key].intent;
      EnqueueFollows(db, intent, orders);
      var queued := Enqueue(db, intent);
      if queued.Ok? {
        FollowsBacked(db, queued.value, orders);
        UntouchedFollows(queued.value, queued.value.(arms := r.db.arms), orders);
        FollowTwice(db, queued.value, queued.value.(arms := r.db.arms), orders);
      }
    }
  }

  lemma TicketFollows(db: Tables, reason: FreezeReason, source: TicketSource, severity: Severity, at: Time, inTransaction: bool, orders: map<ClientOrderKey, BrokerOrder>)
    requires StatusesBacked(db, orders)
    ensures var r := OpenTicket(db.gate, reason, source, severity, at, inTransaction); r.Ok? ==> Follows(db, db.(gate := r.value), orders)
  {
    hide StatusesBacked, Follows, OpenTicket;
    var r := OpenTicket(db.gate, reason, source, severity, at, inTransaction);
    if r.Ok? { GateFollows(db, r.value, orders); }
  }

  lemma TakeFollows(db: Tables, k: ClientOrderKey, verdict: ArmVerdict, token: nat, at: Time, orders: map<ClientOrderKey, BrokerOrder>)
    requires StatusesBacked(db, orders) && Claimable(db, k)
    requires verdict.ArmAdmits? ==> verdict.index < |ArmsOf(db, k)|
    ensures Follows(db, TakeCommand(db, k, verdict, token, at), orders)
  {
    hide StatusesBacked, Follows;
    RewriteFollows(db, TakeCommand(db, k, verdict, token, at), k, orders);
  }

  lemma ExpireFollows(db: Tables, k: ClientOrderKey, at: Time, orders: map<ClientOrderKey, BrokerOrder>)
    requires StatusesBacked(db, orders) && Claimable(db, k)
    ensures Follows(db, ExpireCommand(db, k, at), orders)
  {
    hide StatusesBacked, Follows;
    RewriteFollows(db, ExpireCommand(db, k, at), k, orders);
  }

  lemma ArmsFollow(db: Tables, arms: map<ClientOrderKey, seq<Arm>>, orders: map<ClientOrderKey, BrokerOrder>)
    requires StatusesBacked(db, orders)
    ensures Follows(db, db.(arms := arms), orders)
  {
    hide StatusesBacked, Follows;
    UntouchedFollows(db, db.(arms := arms), orders);
  }

  lemma ClaimFollows(db: Tables, lease: ExecutionLease, latest: Option<Digest>, at: Time, orders: map<ClientOrderKey, BrokerOrder>)
    requires StatusesBacked(db, orders)
    ensures Follows(db, ClaimNext(db, lease, latest, at).db, orders)
  {
    hide StatusesBacked, Follows, ExpireCommand, TakeCommand, LeaseCurrent, JudgeArm, FirstClaimable;
    UntouchedFollows(db, db, orders);
    var found := FirstClaimable(db, db.outboxOrder);
    if !db.gate.frozen && LeaseCurrent(db, lease, at) && found.Some? {
      var k := found.value;
      var verdict := JudgeArm(db, k, latest, at);
      if verdict.ArmRefuses? {
        ArmsFollow(db, db.arms[k := WithArmStatus(ArmsOf(db, k), verdict.index, ArmExpiredStatus)], orders);
      } else {
        ExpireFollows(db, k, at, orders);
        TakeFollows(db, k, verdict, lease.fencingToken, at, orders);
      }
    }
  }

  /** A claimed intent is the staged one. */
  lemma ClaimedIsStaged(db: Tables, lease: ExecutionLease, latest: Option<Digest>, at: Time)
    requires StoreInv(db)
    ensures var r := ClaimNext(db, lease, latest, at).result;
            r.Ok? && r.value.Some? ==> Staged(db.intents, r.value.value)
  {
    hide ExpireCommand, TakeCommand, LeaseCurrent, JudgeArm, FirstClaimable, StoreInv;
    var found := FirstClaimable(db, db.outboxOrder);
    if found.Some? { IntentKey(db, found.value); }
  }

  lemma IntentKey(db: Tables, k: ClientOrderKey)
    requires StoreInv(db) && k in db.intents
    ensures db.intents[k].intent.Key() == k
  {
    hide FilledQuantity;
    assert IntentMatches(k, db.intents[k], db.applied);
  }

  lemma MarkUnknownFollows(db: Tables, id: IntentId, reason: Name, orders: map<ClientOrderKey, BrokerOrder>)
    requires StatusesBacked(db, orders)
    ensures Follows(db, MarkSubmissionUnknown(db, id, reason).db, orders)
  {
    hide StatusesBacked, Follows, RewritesAt, StatusBacked;
    UntouchedFollows(db, db, orders);
    if HasCommand(db, id) {
      hide MarkSubmissionUnknown;
      if id.key in db.intents { BackedAt(db, orders, id.key); }
      UnknownRewrites(db, id, reason);
      UnknownBacked(db, id, reason, orders);
      RewriteFollows(db, MarkSubmissionUnknown(db, id, reason).db, id.key, orders);
    }
  }

  lemma UnknownRewrites(db: Tables, id: IntentId, reason: Name)
    requires HasCommand(db, id)
    ensures RewritesAt(db, MarkSubmissionUnknown(db, id, reason).db, id.key)
  {
  }

  lemma UnknownBacked(db: Tables, id: IntentId, reason: Name, orders: map<ClientOrderKey, BrokerOrder>)
    requires HasCommand(db, id) && (id.key in db.intents ==> StatusBacked(db, orders, id.key))
    ensures var after := MarkSubmissionUnknown(db, id, reason).db; id.key in after.intents ==> StatusBacked(after, orders, id.key)
  {
  }

  /** A command may only be marked delivered when the broker has its order. */
  lemma MarkDeliveredFollows(db: Tables, id: IntentId, orders: map<ClientOrderKey, BrokerOrder>)
    requires StatusesBacked(db, orders) && id.key in orders
    ensures Follows(db, MarkDelivered(db, id), orders)
  {
    hide StatusesBacked, Follows, StatusBacked, MarkDelivered, RewritesAt;
    DeliveryRewrites(db, id);
    DeliveryBacked(db, id, orders);
    RewriteFollows(db, MarkDelivered(db, id), id.key, orders);
  }

  lemma CommandRewrites(db: Tables, k: ClientOrderKey, row: OutboxRow)
    ensures RewritesAt(db, db.(outbox := db.outbox[k := row]), k)
  {
  }

  lemma NothingRewrites(db: Tables, k: ClientOrderKey)
    ensures RewritesAt(db, db, k)
  {
  }

  lemma DeliveryRewrites(db: Tables, id: IntentId)
    ensures RewritesAt(db, MarkDelivered(db, id), id.key)
  {
    NothingRewrites(db, id.key);
    hide RewritesAt;
    if HasCommand(db, id) { CommandRewrites(db, id.key, db.outbox[id.key].(status := OutboxStatus.Delivered)); }
  }

  lemma DeliveryBacked(db: Tables, id: IntentId, orders: map<ClientOrderKey, BrokerOrder>)
    requires id.key in orders
    ensures var after := MarkDelivered(db, id); id.key in after.intents ==> StatusBacked(after, orders, id.key)
  {
  }

  lemma RequestCancelFollows(db: Tables, id: IntentId, actor: Name, orders: map<ClientOrderKey, BrokerOrder>)
    requires StatusesBacked(db, orders)
    ensures Follows(db, RequestCancel(db, id, actor).db, orders)
  {
    hide StatusesBacked, Follows, UpdatedReservation;
    UntouchedFollows(db, db, orders);
    var r := RequestCancel(db, id, actor);
    if r.result.Ok? && id.key !in db.cancels { RewriteFollows(db, r.db, id.key, orders); }
  }

  lemma ClaimCancelFollows(db: Tables, lease: ExecutionLease, at: Time, orders: map<ClientOrderKey, BrokerOrder>)
    requires StatusesBacked(db, orders)
    ensures Follows(db, ClaimNextCancel(db, lease, at).db, orders)
  {
    hide StatusesBacked, Follows, LeaseCurrent, FirstPendingCancel;
    UntouchedFollows(db, db, orders);
    var found := FirstPendingCancel(db, db.cancelOrder);
    if LeaseCurrent(db, lease, at) && found.Some? {
      var k := found.value;
      var after := db.(cancels := db.cancels[k := db.cancels[k].(status := OutboxStatus.Claimed, fencingToken := Some(lease.fencingToken))]);
      UntouchedFollows(db, after, orders);
    }
  }

  lemma MarkCancelUnknownFollows(db: Tables, k: ClientOrderKey, reason: Name, orders: map<ClientOrderKey, BrokerOrder>)
    requires StatusesBacked(db, orders)
    ensures Follows(db, MarkCancelUnknown(db, k, reason).db, orders)
  {
    hide StatusesBacked, Follows;
    UntouchedFollows(db, db, orders);
    var r := MarkCancelUnknown(db, k, reason);
    if r.result.Ok? {
      var j := db.cancels[k].intentId.key;
      if j in db.intents { BackedAt(db, orders, j); }
      RewriteFollows(db, r.db, j, orders);
    }
  }

  lemma MarkCancelDeliveredFollows(db: Tables, k: ClientOrderKey, orders: map<ClientOrderKey, BrokerOrder>)
    requires StatusesBacked(db, orders)
    ensures Follows(db, MarkCancelDelivered(db, k), orders)
  {
    hide StatusesBacked, Follows;
    UntouchedFollows(db, MarkCancelDelivered(db, k), orders);
  }

  lemma RecoverFollows(db: Tables, orders: map<ClientOrderKey, BrokerOrder>)
    requires StatusesBacked(db, orders)
    ensures Follows(db, RecoverClaimed(db, db.outbox.Keys), orders)
  {
    hide RecoverClaimed, Relabeled, OutboxFiled, StatusesBacked, Grounded;
    var after := RecoverClaimed(db, db.outbox.Keys);
    RecoverRelabels(db);
    RelabelingCarries(db, after);
    RecoverGrounds(db, orders);
    GroundedIsBacked(after, orders);
  }

  /** A command may only be resolved when the broker has its order. */
  lemma ResolveFollows(db: Tables, k: ClientOrderKey, brokerOrderId: nat, orders: map<ClientOrderKey, BrokerOrder>)
    requires StatusesBacked(db, orders) && k in orders
    ensures Follows(db, ResolveUnknown(db, k, brokerOrderId), orders)
  {
    hide StatusesBacked, Follows;
    UntouchedFollows(db, db, orders);
    if Unresolved(db, k) { RewriteFollows(db, ResolveUnknown(db, k, brokerOrderId), k, orders); }
  }

  lemma RequeueFollows(db: Tables, k: ClientOrderKey, asOf: Time, orders: map<ClientOrderKey, BrokerOrder>)
    requires StatusesBacked(db, orders)
    ensures Follows(db, RequeueUnknown(db, k, asOf).db, orders)
  {
    hide StatusesBacked, Follows, TooOld;
    UntouchedFollows(db, db, orders);
    if Unresolved(db, k) && !TooOld(db, k, asOf) {
      hide RequeueUnknown, RewritesAt, StatusBacked;
      if k in db.intents { BackedAt(db, orders, k); }
      RequeueRewrites(db, k, asOf);
      RequeueBacked(db, k, asOf, orders);
      RewriteFollows(db, RequeueUnknown(db, k, asOf).db, k, orders);
    }
  }

  lemma RequeueRewrites(db: Tables, k: ClientOrderKey, asOf: Time)
    requires Unresolved(db, k) && !TooOld(db, k, asOf)
    ensures RewritesAt(db, RequeueUnknown(db, k, asOf).db, k)
  {
    hide TooOld;
  }

  lemma RequeueBacked(db: Tables, k: ClientOrderKey, asOf: Time, orders: map<ClientOrderKey, BrokerOrder>)
    requires Unresolved(db, k) && !TooOld(db, k, asOf) && (k in db.intents ==> StatusBacked(db, orders, k))
    ensures var after := RequeueUnknown(db, k, asOf).db; k in after.intents ==> StatusBacked(after, orders, k)
  {
    hide TooOld;
  }

  lemma GateOpsFollow(db: Tables, op: StoreOp, orders: map<ClientOrderKey, BrokerOrder>)
    requires StatusesBacked(db, orders) && (op.OpReopen? || op.OpOpenTicket? || op.OpResolveTicket? || op.OpUnfreeze?)
    ensures Follows(db, ApplyOp(db, op), orders)
  {
    hide StatusesBacked, Follows, OpenTicket, Unfreeze, ResolveTicket, Reopen;
    UntouchedFollows(db, db, orders);
    match op
    case OpReopen(at) =>
      var r := Reopen(db.gate, at);
      if r.Ok? { GateFollows(db, r.value, orders); }
    case OpOpenTicket(reason, source, severity, at) =>
      var r := OpenTicket(db.gate, reason, source, severity, at, false);
      if r.Ok? { GateFollows(db, r.value, orders); }
    case OpResolveTicket(reason, source) => GateFollows(db, ResolveTicket(db.gate, reason, source), orders);
    case OpUnfreeze => GateFollows(db, Unfreeze(db.gate), orders);
  }

  lemma RecordsFollow(db: Tables, op: StoreOp, orders: map<ClientOrderKey, BrokerOrder>)
    requires StatusesBacked(db, orders) && (op.OpRecordQuote? || op.OpRecordAuthority? || op.OpAcquireLease?)
    ensures Follows(db, ApplyOp(db, op), orders)
  {
    hide StatusesBacked, Follows;
    UntouchedFollows(db, db, orders);
    match op
    case OpRecordQuote(quote) => UntouchedFollows(db, db.(quotes := ApplyOp(db, op).quotes), orders);
    case OpRecordAuthority(certificate, row, status) => UntouchedFollows(db, db.(authorities := ApplyOp(db, op).authorities), orders);
    case OpAcquireLease(name, owner, at, ttl) => UntouchedFollows(db, db.(leases := ApplyOp(db, op).leases), orders);
  }

  /** Whatever anyone does to the store on their own keeps it in step with the broker. */
  lemma UnguardedFollows(db: Tables, op: StoreOp, orders: map<ClientOrderKey, BrokerOrder>)
    requires StatusesBacked(db, orders) && Unguarded(op)
    ensures Follows(db, ApplyOp(db, op), orders)
  {
    hide StatusesBacked, Follows, Stage, Approve, ArmApprovedIntent, ClaimNext, MarkSubmissionUnknown;
    hide MarkDelivered, RequestCancel;
    hide ClaimNextCancel, MarkCancelUnknown, MarkCancelDelivered, RecoverClaimed, ResolveUnknown;
    hide RequeueUnknown, Ingest;
    hide RecordQuote, RecordAuthority, AcquireLease, SetBaseline, Reopen, OpenTicket, ResolveTicket, Unfreeze;
    match op
    case OpReopen(_) => GateOpsFollow(db, op, orders);
    case OpOpenTicket(_, _, _, _) => GateOpsFollow(db, op, orders);
    case OpResolveTicket(_, _) => GateOpsFollow(db, op, orders);
    case OpUnfreeze => GateOpsFollow(db, op, orders);
    case OpRecordQuote(_) => RecordsFollow(db, op, orders);
    case OpRecordAuthority(_, _, _) => RecordsFollow(db, op, orders);
    case OpAcquireLease(_, _, _, _) => RecordsFollow(db, op, orders);
    case OpStage(capsule, reservation, intent) => StageFollows(db, capsule, reservation, intent, orders);
    case OpApprove(id, actor, at) => ApproveFollows(db, id, actor, at, orders);
    case OpArm(id, request, at) => ArmFollows(db, id, request, at, orders);
    case OpMarkUnknown(id, reason) => MarkUnknownFollows(db, id, reason, orders);
    case OpRequestCancel(id, actor) => RequestCancelFollows(db, id, actor, orders);
    case OpMarkCancelUnknown(key, reason) => MarkCancelUnknownFollows(db, key, reason, orders);
    case OpMarkCancelDelivered(key) => MarkCancelDeliveredFollows(db, key, orders);
    case OpRecover => RecoverFollows(db, orders);
    case OpRequeue(key, asOf) => RequeueFollows(db, key, asOf, orders);
  }

  /* ---------- How workers see store and broker move ---------- */

  /** Orders and events are only ever added. */
  predicate Grows(b: Broker, after: Broker) {
    && (forall k :: k in b.orders ==> k in after.orders)
    && (forall e :: e in b.events ==> e in after.events)
  }

  lemma WorkersStaySound(
    intents: map<ClientOrderKey, IntentRow>, after: map<ClientOrderKey, IntentRow>, b: Broker, c: Broker, workers: map<Name, Worker>)
    requires WorkersSound(intents, b, workers) && KeepsIntents(intents, after) && Grows(b, c)
    ensures WorkersSound(after, c, workers)
  {
    forall w | w in workers
      ensures PhaseSound(after, c, workers[w].phase)
    {
      assert PhaseSound(intents, b, workers[w].phase);
    }
  }

  lemma SightsStaySound(held: seq<Sight>, b: Broker, c: Broker, startingCash: Money)
    requires SightsSound(held, b, startingCash) && Grows(b, c) && forall k :: k in b.orders ==> k in c.orders && c.orders[k].intent == b.orders[k].intent
    ensures SightsSound(held, c, startingCash)
  {
    hide BrokerInv;
    forall i | 0 <= i < |held|
      ensures BrokerInv(held[i].broker, startingCash) && Earlier(held[i].broker, c)
    {
      EarlierStays(held[i].broker, b, c);
    }
  }

  lemma EarlierStays(h: Broker, b: Broker, c: Broker)
    requires Earlier(h, b) && Grows(b, c) && forall k :: k in b.orders ==> k in c.orders && c.orders[k].intent == b.orders[k].intent
    ensures Earlier(h, c)
  {
  }

  /** A store step seen by the whole system. */
  lemma StoreMoves(s: System, after: Tables, startingCash: Money)
    requires SystemInv(s, startingCash) && InStep(after, s.broker, startingCash) && KeepsIntents(s.db.intents, after.intents)
    ensures SystemInv(s.(db := after), startingCash)
  {
    hide InStep, PhaseSound, KeepsIntents, TokensOrdered;
    WorkersStaySound(s.db.intents, after.intents, s.broker, s.broker, s.workers);
  }

  /** Removing a worker or moving it to a sound phase. */
  lemma DeadKeeps(s: System, startingCash: Money, w: Name)
    requires SystemInv(s, startingCash)
    ensures SystemInv(Dead(s, w), startingCash)
  {
    hide InStep, PhaseSound, TokensOrdered;
  }

  lemma AtKeeps(s: System, startingCash: Money, w: Name, phase: Phase)
    requires SystemInv(s, startingCash) && w in s.workers && PhaseSound(s.db.intents, s.broker, phase)
    ensures SystemInv(At(s, w, phase), startingCash)
  {
    hide InStep, PhaseSound, TokensOrdered;
  }

  /* ---------- Broker steps ---------- */

  /** The broker moves without opening an order: the store need not know yet. */
  lemma BrokerMoves(s: System, b: Broker, startingCash: Money)
    requires SystemInv(s, startingCash) && BrokerInv(b, startingCash) && Grows(s.broker, b) && b.highestToken == s.broker.highestToken
    requires forall k :: k in b.orders ==> k in s.broker.orders && b.orders[k].intent == s.broker.orders[k].intent
    ensures SystemInv(s.(broker := b), startingCash)
  {
    hide StoreInv, BrokerInv, PhaseSound, BaselineSound, TokensOrdered, SightsSound;
    WorkersStaySound(s.db.intents, s.db.intents, s.broker, b, s.workers);
    SightsStaySound(s.held, s.broker, b, startingCash);
    OrdersBack(s.db, s.broker.orders, b.orders);
  }

  lemma OrdersBack(db: Tables, orders: map<ClientOrderKey, BrokerOrder>, after: map<ClientOrderKey, BrokerOrder>)
    requires StatusesBacked(db, orders) && forall k :: k in orders ==> k in after
    ensures StatusesBacked(db, after)
  {
  }

  /** No order is opened, and none changes hands. */
  predicate SameOrders(b: Broker, after: Broker) {
    && Grows(b, after) && after.highestToken == b.highestToken
    && forall k :: k in after.orders ==> k in b.orders && after.orders[k].intent == b.orders[k].intent
  }

  lemma FillMoves(b: Broker, k: ClientOrderKey, quantity: int, price: Price, at: Time)
    ensures SameOrders(b, FillAt(b, k, quantity, price, at).broker)
  {
  }

  lemma CommissionMoves(b: Broker, k: ClientOrderKey, amount: int, at: Time)
    ensures SameOrders(b, ChargeCommission(b, k, amount, at).broker)
  {
  }

  lemma MarketKeeps(s: System, startingCash: Money, move: Label)
    requires SystemInv(s, startingCash) && (move.QueueScenario? || move.MarketFill? || move.MarketCommission?)
    ensures SystemInv(Step(s, move), startingCash)
  {
    hide SystemInv, BrokerInv, FillOrder, ChargeCommission, InStep, StoreInv, StatusesBacked;
    BrokerOf(s, startingCash);
    match move
    case QueueScenario(scenario) =>
      ScenarioKeepsInv(s.broker, startingCash, scenario);
      BrokerMoves(s, EnqueueScenario(s.broker, scenario), startingCash);
    case MarketFill(key, quantity, price, at) =>
      if key in s.broker.orders { FillKeepsInv(s.broker, startingCash, key, quantity, price, at); }
      FillMoves(s.broker, key, quantity, price, at);
      BrokerMoves(s, FillAt(s.broker, key, quantity, price, at).broker, startingCash);
    case MarketCommission(key, amount, at) =>
      CommissionKeepsInv(s.broker, startingCash, key, amount, at);
      CommissionMoves(s.broker, key, amount, at);
      BrokerMoves(s, ChargeCommission(s.broker, key, amount, at).broker, startingCash);
  }

  lemma BrokerOf(s: System, startingCash: Money)
    requires SystemInv(s, startingCash)
    ensures BrokerInv(s.broker, startingCash) && InStep(s.db, s.broker, startingCash) && StoreInv(s.db) && StatusesBacked(s.db, s.broker.orders)
  {
    hide StoreInv, BrokerInv, StatusBacked, WorkersSound, TokensOrdered;
  }

  lemma ScenarioKeepsInv(b: Broker, startingCash: Money, scenario: Scenario)
    requires BrokerInv(b, startingCash)
    ensures BrokerInv(EnqueueScenario(b, scenario), startingCash)
  {
    hide KeysListed, SequencesIncrease, OrdersMatch, BooksBalance;
  }

  /* ---------- Broker writes by workers ---------- */

  lemma {:induction false} EventsForKnown(events: seq<BrokerEvent>, k: ClientOrderKey)
    ensures FromBroker(EventsFor(events, k), events)
  {
    if events != [] { EventsForKnown(events[..|events| - 1], k); }
  }

  /** The broker took the write: it was not refused as stale or unknown. */
  predicate Accepted<T>(result: Result<T>) { result.Ok? || result.error == ResponseDropped }

  /** After an accepted submit the broker has the order, and every other order is as before. */
  predicate SubmitEffect(b: Broker, after: Broker, intent: ExecutionIntent, token: nat) {
    && Grows(b, after) && after.highestToken == token >= b.highestToken
    && intent.Key() in after.orders
    && forall k :: k in after.orders ==>
         if k in b.orders then after.orders[k].intent == b.orders[k].intent else k == intent.Key() && after.orders[k].intent == intent
  }

  lemma SubmitAgain(b: Broker, intent: ExecutionIntent, token: nat, at: Time)
    requires token >= b.highestToken && intent.Key() in b.orders
    ensures var r := Submit(b, intent, token, at);
            r.result.Ok? && SubmitEffect(b, r.broker, intent, token) && FromBroker(r.result.value, r.broker.events)
  {
    EventsForKnown(b.events, intent.Key());
  }

  lemma SubmitNew(b: Broker, intent: ExecutionIntent, token: nat, at: Time)
    requires token >= b.highestToken && intent.Key() !in b.orders
    ensures var r := Submit(b, intent, token, at);
            && (Accepted(r.result) ==> SubmitEffect(b, r.broker, intent, token))
            && (r.result.Ok? ==> FromBroker(r.result.value, r.broker.events))
  {
    var k := intent.Key();
    var scenario := NextScenario(b);
    var placed := AcceptOrder(PopScenario(b.(highestToken := token)), intent, scenario);
    var ack := NextEvent(placed, k, b.nextOrderId, Ack, 0, None, 0, at);
    assert ack in Emit(placed, ack).events;
  }

  lemma SubmitMoves(b: Broker, intent: ExecutionIntent, token: nat, at: Time)
    ensures var r := Submit(b, intent, token, at);
            && (Accepted(r.result) ==> SubmitEffect(b, r.broker, intent, token))
            && (r.result.Ok? ==> FromBroker(r.result.value, r.broker.events))
  {
    hide SubmitEffect, FromBroker, AcceptOrder, FillOrder, EventsFor, NextScenario, NextEvent, PopScenario, Emit;
    if token >= b.highestToken {
      if intent.Key() in b.orders { SubmitAgain(b, intent, token, at); } else { SubmitNew(b, intent, token, at); }
    }
  }

  predicate CancelEffect(b: Broker, after: Broker, token: nat) {
    && Grows(b, after) && after.highestToken == token >= b.highestToken
    && forall k :: k in after.orders ==> k in b.orders && after.orders[k].intent == b.orders[k].intent
  }

  lemma CancelMoves(b: Broker, k: ClientOrderKey, token: nat, at: Time)
    ensures var r := Cancel(b, k, token, 0, at);
            && (Accepted(r.result) ==> CancelEffect(b, r.broker, token))
            && (r.result.Ok? ==> FromBroker(r.result.value, r.broker.events))
  {
  }

  lemma TokenAppends(tokens: seq<nat>, highest: nat, token: nat)
    requires TokensOrdered(tokens, highest) && token >= highest
    ensures TokensOrdered(tokens + [token], token)
  {
  }

  /** The broker has just opened the order of a staged intent, or none. */
  lemma WriteMoves(s: System, b: Broker, startingCash: Money, token: nat)
    requires SystemInv(s, startingCash) && BrokerInv(b, startingCash) && Grows(s.broker, b)
    requires b.highestToken == token >= s.broker.highestToken
    requires forall k :: k in b.orders ==>
               if k in s.broker.orders then b.orders[k].intent == s.broker.orders[k].intent
               else k in s.db.intents && s.db.intents[k].intent == b.orders[k].intent
    ensures SystemInv(Fenced(s.(broker := b), token), startingCash)
  {
    hide StoreInv, BrokerInv, PhaseSound, BaselineSound, TokensOrdered, SightsSound;
    WorkersStaySound(s.db.intents, s.db.intents, s.broker, b, s.workers);
    SightsStaySound(s.held, s.broker, b, startingCash);
    OrdersBack(s.db, s.broker.orders, b.orders);
    TokenAppends(s.tokens, s.broker.highestToken, token);
  }

  lemma SubmitKeeps(s: System, startingCash: Money, w: Name, intent: ExecutionIntent, at: Time)
    requires SystemInv(s, startingCash) && w in s.workers && Staged(s.db.intents, intent)
    ensures SystemInv(AfterSubmit(s, w, intent, at), startingCash)
  {
    hide SystemInv, BrokerInv, Submit, InStep, StoreInv, StatusesBacked, FromBroker, Grows;
    var token := s.workers[w].lease.fencingToken;
    var r := Submit(s.broker, intent, token, at);
    BrokerOf(s, startingCash);
    SubmitKeepsInv(s.broker, startingCash, intent, token, at);
    SubmitMoves(s.broker, intent, token, at);
    DeadKeeps(s, startingCash, w);
    if Accepted(r.result) {
      WriteMoves(s, r.broker, startingCash, token);
      var phase := if r.result.Ok? then SubmitAnswered(intent, r.result.value) else SubmitDropped(intent);
      AtKeeps(Fenced(s.(broker := r.broker), token), startingCash, w, phase);
    }
  }

  lemma CancelKeeps(s: System, startingCash: Money, w: Name, intent: ExecutionIntent, at: Time)
    requires SystemInv(s, startingCash) && w in s.workers
    ensures SystemInv(AfterCancel(s, w, intent, at), startingCash)
  {
    hide SystemInv, BrokerInv, Cancel, InStep, StoreInv, StatusesBacked, FromBroker, Grows;
    var token := s.workers[w].lease.fencingToken;
    var r := Cancel(s.broker, intent.Key(), token, 0, at);
    BrokerOf(s, startingCash);
    BrokerModel.CancelKeepsInv(s.broker, startingCash, intent.Key(), token, 0, at);
    CancelMoves(s.broker, intent.Key(), token, at);
    DeadKeeps(s, startingCash, w);
    if Accepted(r.result) {
      WriteMoves(s, r.broker, startingCash, token);
      var phase := if r.result.Ok? then CancelAnswered(intent, r.result.value) else CancelDropped(intent);
      AtKeeps(Fenced(s.(broker := r.broker), token), startingCash, w, phase);
    }
  }

  lemma StartKeeps(s: System, startingCash: Money, w: Name, lease: ExecutionLease)
    requires SystemInv(s, startingCash)
    ensures SystemInv(AfterStart(s, w, lease), startingCash)
  {
    hide SystemInv, BrokerInv, InStep, StoreInv, StatusesBacked;
    var token := lease.fencingToken;
    if token >= s.broker.highestToken {
      BrokerOf(s, startingCash);
      FencedKeepsInv(s.broker, startingCash, token);
      StoresStaged(s, startingCash);
      var fenced := Fenced(s.(broker := s.broker.(highestToken := token)), token);
      WriteMoves(s, s.broker.(highestToken := token), startingCash, token);
      NewWorkerKeeps(fenced, startingCash, w, lease);
    }
  }

  lemma NewWorkerKeeps(s: System, startingCash: Money, w: Name, lease: ExecutionLease)
    requires SystemInv(s, startingCash)
    ensures SystemInv(s.(workers := s.workers[w := Worker(lease, Idle)]), startingCash)
  {
    hide InStep, TokensOrdered;
    var after := s.(workers := s.workers[w := Worker(lease, Idle)]);
    forall v | v in after.workers
      ensures PhaseSound(after.db.intents, after.broker, after.workers[v].phase)
    {
      if v != w { assert PhaseSound(s.db.intents, s.broker, s.workers[v].phase); }
    }
  }

  lemma StoresStaged(s: System, startingCash: Money)
    requires SystemInv(s, startingCash)
    ensures forall k :: k in s.broker.orders ==> k in s.db.intents && s.db.intents[k].intent == s.broker.orders[k].intent
  {
    hide StoreInv, BrokerInv, StatusBacked, WorkersSound, TokensOrdered;
  }

  /* ---------- Store writes by workers, operators and reconciliations ---------- */

  /** A store transaction with evidence enough to stay in step. */
  lemma FollowingMove(s: System, after: Tables, startingCash: Money)
    requires SystemInv(s, startingCash) && StoreInv(after) && Follows(s.db, after, s.broker.orders)
    ensures SystemInv(s.(db := after), startingCash)
  {
    hide StoreInv, BrokerInv, StatusBacked, StatusesBacked, InStep, WorkersSound, TokensOrdered;
    FollowKeepsStep(s.db, after, s.broker, startingCash);
    StoreMoves(s, after, startingCash);
  }

  lemma StoreStepKeeps(s: System, startingCash: Money, op: StoreOp)
    requires SystemInv(s, startingCash)
    ensures SystemInv(AfterStore(s, op), startingCash)
  {
    hide SystemInv, ApplyOp, InStep, BrokerInv, StoreInv, StatusesBacked, Unguarded, Follows;
    if Unguarded(op) {
      BrokerOf(s, startingCash);
      ApplyOpKeepsInv(s.db, op);
      UnguardedFollows(s.db, op, s.broker.orders);
      FollowingMove(s, ApplyOp(s.db, op), startingCash);
    }
  }

  /** Storing any broker event, in any order and any number of times. */
  lemma EventKeeps(s: System, startingCash: Money, e: BrokerEvent)
    requires SystemInv(s, startingCash) && e in s.broker.events
    ensures Ingest(s.db, e).result.Ok? && SystemInv(s.(db := Ingest(s.db, e).db), startingCash)
  {
    hide StoreInv, BrokerInv, StatusBacked, StatusesBacked, Ingest, EventSet, PhaseSound, TokensOrdered;
    IngestNext(s.db, s.broker, startingCash, e);
    IngestBacks(s.db, s.broker, startingCash, e);
    SameFrameCarries(s.db, Ingest(s.db, e).db);
    StoreMoves(s, Ingest(s.db, e).db, startingCash);
  }

  lemma IngestBacks(db: Tables, b: Broker, startingCash: Money, e: BrokerEvent)
    requires InStep(db, b, startingCash) && e in b.events
    ensures StatusesBacked(Ingest(db, e).db, b.orders)
  {
    hide StoreInv, BrokerInv, StatusBacked, Ingest, EventSet, AppliedRow, Linked;
    IngestNext(db, b, startingCash, e);
    EventsHaveIntents(db, b, startingCash);
    assert e in EventSet(b.events) by { EventIsListed(b.events, e); }
    IngestOneIntents(db, e);
    var after := Ingest(db, e).db;
    forall k | k in after.intents
      ensures StatusBacked(after, b.orders, k)
    {
      if k == e.Key() { BackedByOrder(after, b.orders, k); } else { BackedElsewhere(db, after, b.orders, k); }
    }
  }

  lemma EventIsListed(events: seq<BrokerEvent>, e: BrokerEvent)
    requires e in events
    ensures e in EventSet(events)
  {
  }

  lemma BackedByOrder(db: Tables, orders: map<ClientOrderKey, BrokerOrder>, k: ClientOrderKey)
    requires k in db.intents && k in orders
    ensures StatusBacked(db, orders, k)
  {
  }

  lemma BackedElsewhere(db: Tables, after: Tables, orders: map<ClientOrderKey, BrokerOrder>, k: ClientOrderKey)
    requires StatusesBacked(db, orders) && k in db.intents && k in after.intents && after.intents[k] == db.intents[k]
    requires after.outbox == db.outbox
    ensures StatusBacked(after, orders, k)
  {
    assert StatusBacked(db, orders, k);
  }

  lemma IngestKeeps(s: System, startingCash: Money, w: Name)
    requires SystemInv(s, startingCash) && w in s.workers
    ensures SystemInv(AfterIngest(s, w), startingCash)
  {
    hide SystemInv, Ingest, InStep;
    var phase := s.workers[w].phase;
    if (phase.SubmitAnswered? || phase.CancelAnswered?) && phase.answer != [] {
      WorkerIsSound(s, startingCash, w);
      var e := phase.answer[0];
      EventKeeps(s, startingCash, e);
      var after := s.(db := Ingest(s.db, e).db);
      WorkerIsSound(after, startingCash, w);
      AtKeeps(after, startingCash, w, phase.(answer := phase.answer[1..]));
    }
  }

  lemma WorkerIsSound(s: System, startingCash: Money, w: Name)
    requires SystemInv(s, startingCash) && w in s.workers
    ensures PhaseSound(s.db.intents, s.broker, s.workers[w].phase)
  {
    hide InStep, TokensOrdered;
  }

  lemma ClaimKeeps(s: System, startingCash: Money, w: Name, latest: Option<Digest>, at: Time)
    requires SystemInv(s, startingCash) && w in s.workers
    ensures SystemInv(AfterClaim(s, w, latest, at), startingCash)
  {
    hide SystemInv, ClaimNext, InStep, StoreInv, BrokerInv, StatusesBacked, Follows;
    BrokerOf(s, startingCash);
    var r := ClaimNext(s.db, s.workers[w].lease, latest, at);
    ClaimKeepsInv(s.db, s.workers[w].lease, latest, at);
    ClaimFollows(s.db, s.workers[w].lease, latest, at, s.broker.orders);
    ClaimedIsStaged(s.db, s.workers[w].lease, latest, at);
    FollowingMove(s, r.db, startingCash);
    var after := s.(db := r.db);
    DeadKeeps(after, startingCash, w);
    if r.result.Ok? && r.result.value.Some? {
      StagedStays(s.db, r.db, s.broker.orders, r.result.value.value);
      AtKeeps(after, startingCash, w, SubmitClaimed(r.result.value.value));
    }
  }

  lemma StagedStays(db: Tables, after: Tables, orders: map<ClientOrderKey, BrokerOrder>, intent: ExecutionIntent)
    requires Follows(db, after, orders) && Staged(db.intents, intent)
    ensures Staged(after.intents, intent)
  {
    hide StatusesBacked;
  }

  lemma ClaimCancelKeeps(s: System, startingCash: Money, w: Name, at: Time)
    requires SystemInv(s, startingCash) && w in s.workers
    ensures SystemInv(AfterClaimCancel(s, w, at), startingCash)
  {
    hide SystemInv, ClaimNextCancel, InStep, StoreInv, BrokerInv, StatusesBacked, Follows;
    BrokerOf(s, startingCash);
    var r := ClaimNextCancel(s.db, s.workers[w].lease, at);
    ClaimCancelKeepsInv(s.db, s.workers[w].lease, at);
    ClaimCancelFollows(s.db, s.workers[w].lease, at, s.broker.orders);
    FollowingMove(s, r.db, startingCash);
    var after := s.(db := r.db);
    DeadKeeps(after, startingCash, w);
    if r.result.Ok? && r.result.value.Some? { AtKeeps(after, startingCash, w, CancelClaimed(r.result.value.value)); }
  }

  lemma ValidateKeeps(s: System, startingCash: Money, w: Name, at: Time)
    requires SystemInv(s, startingCash) && w in s.workers
    ensures SystemInv(AfterValidate(s, w, at), startingCash)
  {
    hide SystemInv, LeaseCurrent;
    WorkerIsSound(s, startingCash, w);
    DeadKeeps(s, startingCash, w);
    match s.workers[w].phase
    case SubmitClaimed(intent) => AtKeeps(s, startingCash, w, SubmitValidated(intent));
    case CancelClaimed(intent) => AtKeeps(s, startingCash, w, CancelValidated(intent));
    case _ =>
  }

  lemma SendKeeps(s: System, startingCash: Money, w: Name, at: Time)
    requires SystemInv(s, startingCash) && w in s.workers
    ensures SystemInv(AfterSend(s, w, at), startingCash)
  {
    hide SystemInv, AfterSubmit, AfterCancel;
    WorkerIsSound(s, startingCash, w);
    match s.workers[w].phase
    case SubmitValidated(intent) => SubmitKeeps(s, startingCash, w, intent, at);
    case CancelValidated(intent) => CancelKeeps(s, startingCash, w, intent, at);
    case _ =>
  }

  lemma FinishKeeps(s: System, startingCash: Money, w: Name, reason: Name)
    requires SystemInv(s, startingCash) && w in s.workers
    ensures SystemInv(AfterFinish(s, w, reason), startingCash)
  {
    hide SystemInv, InStep, StoreInv, BrokerInv, StatusesBacked, Follows, MarkDelivered, MarkSubmissionUnknown;
    hide MarkCancelDelivered, MarkCancelUnknown;
    WorkerIsSound(s, startingCash, w);
    BrokerOf(s, startingCash);
    DeadKeeps(s, startingCash, w);
    var orders := s.broker.orders;
    match s.workers[w].phase
    case SubmitAnswered(intent, _) =>
      MarkDeliveredKeepsInv(s.db, intent.id);
      MarkDeliveredFollows(s.db, intent.id, orders);
      FinishMove(s, MarkDelivered(s.db, intent.id), startingCash, w);
    case SubmitDropped(intent) =>
      MarkUnknownKeepsInv(s.db, intent.id, reason);
      MarkUnknownFollows(s.db, intent.id, reason, orders);
      FinishMove(s, MarkSubmissionUnknown(s.db, intent.id, reason).db, startingCash, w);
    case CancelAnswered(intent, _) =>
      MarkCancelDeliveredKeepsInv(s.db, intent.Key());
      MarkCancelDeliveredFollows(s.db, intent.Key(), orders);
      FinishMove(s, MarkCancelDelivered(s.db, intent.Key()), startingCash, w);
    case CancelDropped(intent) =>
      MarkCancelUnknownKeepsInv(s.db, intent.Key(), reason);
      MarkCancelUnknownFollows(s.db, intent.Key(), reason, orders);
      FinishMove(s, MarkCancelUnknown(s.db, intent.Key(), reason).db, startingCash, w);
    case _ =>
  }

  lemma FinishMove(s: System, after: Tables, startingCash: Money, w: Name)
    requires SystemInv(s, startingCash) && w in s.workers && StoreInv(after) && Follows(s.db, after, s.broker.orders)
    ensures SystemInv(At(s.(db := after), w, Idle), startingCash)
  {
    hide SystemInv, InStep, StoreInv, Follows;
    FollowingMove(s, after, startingCash);
    AtKeeps(s.(db := after), startingCash, w, Idle);
  }

  lemma SnapshotKeeps(s: System, startingCash: Money, asOf: Time)
    requires SystemInv(s, startingCash)
    ensures SystemInv(AfterSnapshot(s, asOf), startingCash)
  {
    BrokerOf(s, startingCash);
    hide InStep, BrokerInv, WorkersSound, TokensOrdered, Earlier;
    EarlierSelf(s.broker);
  }

  lemma SightOf(s: System, startingCash: Money, sight: nat)
    requires SystemInv(s, startingCash) && sight < |s.held|
    ensures BrokerInv(s.held[sight].broker, startingCash) && Earlier(s.held[sight].broker, s.broker)
  {
    hide InStep, BrokerInv, WorkersSound, TokensOrdered, Earlier;
  }

  lemma BaselineKeeps(s: System, startingCash: Money, sight: nat)
    requires SystemInv(s, startingCash)
    ensures SystemInv(AfterBaseline(s, sight), startingCash)
  {
    hide SystemInv, StoreInv, StatusBacked, EventSet, SetBaseline, Snapshot, BaselineSound, BrokerInv, Linked;
    BrokerOf(s, startingCash);
    if InSight(s, sight) {
      var h := s.held[sight];
      var after := SetBaseline(s.db, Snapshot(h.broker, h.asOf));
      BaselineCarries(s.db, Snapshot(h.broker, h.asOf));
      NewBaselineSound(s.db, h.broker, h.asOf);
      UntouchedKeepsInv(s.db, after);
      SameCommands(s.db, after, s.broker.orders);
      LinkedAlike(s.db, after, s.broker);
      StoreMoves(s, after, startingCash);
    }
  }

  /** Writing only the tables of runs and discrepancies keeps the invariant. */
  lemma ReportsKeep(s: System, startingCash: Money, after: Tables)
    requires SystemInv(s, startingCash) && after == s.db.(runs := after.runs, discrepancies := after.discrepancies)
    ensures SystemInv(s.(db := after), startingCash)
  {
    hide SystemInv, StoreInv, StatusBacked, EventSet, BaselineSound, BrokerInv, Linked;
    BrokerOf(s, startingCash);
    SoundAlike(s.db, after);
    UntouchedKeepsInv(s.db, after);
    SameCommands(s.db, after, s.broker.orders);
    LinkedAlike(s.db, after, s.broker);
    StoreMoves(s, after, startingCash);
  }

  lemma SoundAlike(db: Tables, after: Tables)
    requires BaselineSound(db) && after.baseline == db.baseline
    ensures BaselineSound(after)
  {
  }

  lemma LinkedAlike(db: Tables, after: Tables, b: Broker)
    requires Linked(db, b) && after.intents == db.intents && after.applied == db.applied && after.inbox == db.inbox
    ensures Linked(after, b)
  {
    hide EventSet;
  }

  lemma ReconcileKeeps(s: System, startingCash: Money, sight: nat, at: Time)
    requires SystemInv(s, startingCash)
    ensures SystemInv(AfterReconcile(s, sight, at), startingCash)
  {
    hide SystemInv, StoreInv, BrokerInv, InStep, Reconcile, Snapshot, Earlier, BaselineAfter;
    BrokerOf(s, startingCash);
    if InSight(s, sight) {
      var h := s.held[sight];
      SightOf(s, startingCash, sight);
      ReconcileKeepsStep(s.db, s.broker, h.broker, startingCash, h.asOf, at);
      var r := Reconcile(s.db, Snapshot(h.broker, h.asOf), at);
      if r.Ok? { StoreMoves(s, r.value.0, startingCash); }
    }
  }

  lemma ResolveKeeps(s: System, startingCash: Money, key: ClientOrderKey)
    requires SystemInv(s, startingCash)
    ensures SystemInv(AfterResolve(s, key), startingCash)
  {
    hide SystemInv, StoreInv, BrokerInv, InStep, ResolveUnknown, Follows, StatusesBacked;
    BrokerOf(s, startingCash);
    if key in s.broker.orders {
      var orderId := s.broker.orders[key].orderId;
      StoreInvariants.ResolveKeepsInv(s.db, key, orderId);
      ResolveFollows(s.db, key, orderId, s.broker.orders);
      FollowingMove(s, ResolveUnknown(s.db, key, orderId), startingCash);
    }
  }

  /* ---------- Runs ---------- */

  lemma WorkerKeeps(s: System, startingCash: Money, move: Label, w: Name)
    requires SystemInv(s, startingCash) && w in s.workers
    ensures SystemInv(AfterWorker(s, move, w), startingCash)
  {
    hide SystemInv, AfterClaim, AfterClaimCancel, AfterValidate, AfterSend, AfterIngest, AfterFinish;
    match move
    case WorkerClaim(_, latest, at) => ClaimKeeps(s, startingCash, w, latest, at);
    case WorkerClaimCancel(_, at) => ClaimCancelKeeps(s, startingCash, w, at);
    case WorkerValidate(_, at) => ValidateKeeps(s, startingCash, w, at);
    case WorkerSend(_, at) => SendKeeps(s, startingCash, w, at);
    case WorkerIngest(_) => IngestKeeps(s, startingCash, w);
    case WorkerFinish(_, reason) => FinishKeeps(s, startingCash, w, reason);
    case _ =>
  }

  lemma StepKeeps(s: System, startingCash: Money, move: Label)
    requires SystemInv(s, startingCash)
    ensures SystemInv(Step(s, move), startingCash)
  {
    hide SystemInv, AfterStore, AfterDelivery, AfterResolve, AfterSnapshot, AfterBaseline, AfterReconcile, AfterStart, AfterWorker;
    hide EnqueueScenario, FillAt, ChargeCommission;
    match move
    case StoreStep(op) => StoreStepKeeps(s, startingCash, op);
    case DeliverEvent(index) => DeliveryKeeps(s, startingCash, index);
    case ResolveAtBroker(key) => ResolveKeeps(s, startingCash, key);
    case TakeSnapshot(asOf) => SnapshotKeeps(s, startingCash, asOf);
    case TakeBaseline(sight) => BaselineKeeps(s, startingCash, sight);
    case StartRun(run) => ReportsKeep(s, startingCash, RunStarted(s.db, run));
    case RecordRun(run, found) => ReportsKeep(s, startingCash, RunRecorded(s.db, run, found));
    case RunReconciliation(sight, at) => ReconcileKeeps(s, startingCash, sight, at);
    case QueueScenario(_) => MarketKeeps(s, startingCash, move);
    case MarketFill(_, _, _, _) => MarketKeeps(s, startingCash, move);
    case MarketCommission(_, _, _) => MarketKeeps(s, startingCash, move);
    case StartWorker(w, lease) => StartKeeps(s, startingCash, w, lease);
    case CrashWorker(w) => DeadKeeps(s, startingCash, w);
    case _ => if move.w in s.workers { WorkerKeeps(s, startingCash, move, move.w); }
  }

  lemma DeliveryKeeps(s: System, startingCash: Money, index: nat)
    requires SystemInv(s, startingCash)
    ensures SystemInv(AfterDelivery(s, index), startingCash)
  {
    hide SystemInv, Ingest;
    if index < |s.broker.events| { EventKeeps(s, startingCash, s.broker.events[index]); }
  }

  lemma NewSystemInv(startingCash: Money)
    ensures SystemInv(NewSystem(startingCash), startingCash)
  {
    NewTablesInv();
    NewBrokerInv(startingCash);
    hide StoreInv, BrokerInv;
  }

  /** The invariant holds after every interleaving. */
  lemma {:induction false} RunKeeps(startingCash: Money, moves: seq<Label>)
    ensures SystemInv(Run(NewSystem(startingCash), moves), startingCash)
  {
    hide SystemInv, Step;
    NewSystemInv(startingCash);
    if moves != [] {
      RunKeeps(startingCash, moves[..|moves| - 1]);
      StepKeeps(Run(NewSystem(startingCash), moves[..|moves| - 1]), startingCash, moves[|moves| - 1]);
    }
  }
}

