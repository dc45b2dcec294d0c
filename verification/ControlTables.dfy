/** The tables of the durable execution store and what each transaction does to them.

    A transaction is a function from the tables to an `Outcome`: the tables it commits (unchanged when it
    rolls back) and its result. Rows are keyed by client order key, which is UNIQUE in the intent, outbox
    and cancel tables; the order sequences are the rowid order in which commands are claimed. Rows of
    order_events that carry a broker event are the set `applied`, the others the set `notes`. */
module ControlTables {
  import opened ControlModels
  import opened Admission
  import opened FreezeGate
  import opened Sums

  datatype ReservationRow = ReservationRow(reservation: RiskReservation, status: ReservationStatus, consumed: nat)

  datatype IntentRow = IntentRow(
    intent: ExecutionIntent,
    status: ExecutionStatus,
    filled: nat,
    brokerOrderId: Option<nat>,
    lastSequence: nat,
    version: nat)

  datatype Approval = Approval(
    actor: Name, approvedAt: Time, expiresAt: Time, intent: ExecutionIntent, reservation: RiskReservation, version: nat)

  datatype ArmRequest = ArmRequest(
    authorityId: Digest,
    quoteId: Digest,
    maxDriftBps: real,
    armedBy: Name,
    armSource: Name,
    session: Option<Name>,
    expiresAt: Time,
    authorityMaxAge: nat,
    policy: QuotePolicy)

  /** The document an arm binds its approval to. */
  datatype ArmBinding = ArmBinding(
    intent: ExecutionIntent,
    request: ArmRequest,
    semanticHash: Digest,
    quoteHash: Digest,
    limitPrice: Price,
    armedAt: Time,
    expiresAt: Time)

  datatype ArmStatus = ArmActive | ArmExpiredStatus | ArmSuperseded | ArmConsumed(at: Time)

  datatype Arm = Arm(binding: ArmBinding, version: nat, status: ArmStatus)

  datatype OutboxRow = OutboxRow(
    intent: ExecutionIntent, status: OutboxStatus, fencingToken: Option<nat>, claimedAt: Option<Time>)

  datatype CancelRow = CancelRow(intentId: IntentId, status: OutboxStatus, fencingToken: Option<nat>, requestedBy: Name)

  datatype InboxStatus = Applied | Orphan

  datatype NoteKind =
    | SubmissionUnknownNote(reason: Name)
    | CancelUnknownNote(reason: Name)
    | ReservationExpiredNote(at: Time)
    | CancelNote(actor: Name, beforeBroker: bool)
    | BrokerOrderDiscovered(brokerOrderId: nat)
    | RequeuedAfterBrokerAbsence(asOf: Time)

  datatype OrderNote = OrderNote(intentId: IntentId, kind: NoteKind)

  datatype Baseline = Baseline(cash: Money, accruedCash: Option<Money>, projectionCashDelta: Money)

  datatype AuthorityRow = AuthorityRow(semanticHash: Digest, asOf: Time, complete: bool, baseCurrency: Currency)

  /** A run that waits for agreement is named by what it waits for. */
  datatype RunId =
    | RunId(asOf: Time, startedAt: Time)
    | ConsensusRun(semanticHash: Option<Digest>, scope: Option<Digest>, count: nat, at: Time)

  datatype RunStatus = Running | Converged | Degraded | Blocked | IncompleteSnapshot | AwaitingConsensus | AuthorityRejected

  /** What a reconciliation found to differ; the constructor and its first field are (kind, entity). */
  datatype Discrepancy =
    | IncompleteSnapshotFound(certificate: Digest, asOf: Time)
    | ConsensusPendingFound(scope: Option<Digest>, count: nat)
    | BrokerOnlyOrder(key: ClientOrderKey, brokerOrderId: nat)
    | FillQuantityMismatch(key: ClientOrderKey, local: int, broker: int)
    | LocalOrderMissing(key: ClientOrderKey, status: ExecutionStatus)
    | PositionMismatch(instrument: Instrument, local: int, broker: int)
    | ProtectionShortfall(key: ClientOrderKey, filledQuantity: nat, covered: int)
    | CashMismatch(currency: Currency, local: int, broker: int)
    | AccruedCashMismatch(currency: Currency, local: int, broker: int)
    | BaseBalanceMismatch(currency: Currency, local: int, broker: int)
    | NakedLongExposure(instrument: Instrument, position: int, covered: int)

  datatype Lifecycle = OpenRow | SupersededRow | ResolvedRow

  datatype Tables = Tables(
    gate: Gate,
    capsules: map<Digest, DecisionCapsule>,
    reservations: map<ReservationId, ReservationRow>,
    intents: map<ClientOrderKey, IntentRow>,
    approvals: map<ClientOrderKey, Approval>,
    arms: map<ClientOrderKey, seq<Arm>>,
    outbox: map<ClientOrderKey, OutboxRow>,
    outboxOrder: seq<ClientOrderKey>,
    cancels: map<ClientOrderKey, CancelRow>,
    cancelOrder: seq<ClientOrderKey>,
    inbox: map<EventId, InboxStatus>,
    applied: set<BrokerEvent>,
    notes: set<OrderNote>,
    positions: map<Instrument, int>,
    cashDelta: Money,
    commissions: Money,
    leases: map<Name, ExecutionLease>,
    baseline: Option<Baseline>,
    authorities: map<Digest, AuthorityRow>,
    quotes: map<Digest, QuoteSnapshot>,
    runs: map<RunId, RunStatus>,
    discrepancies: map<Discrepancy, Lifecycle>)

  datatype Outcome<+T> = Outcome(db: Tables, result: Result<T>)

  /** A database that has just been created. */
  const NEW_TABLES := Tables(
    NEW_GATE, map[], map[], map[], map[], map[], map[], [], map[], [], map[], {}, {}, map[], 0, 0, map[], None,
    map[], map[], map[], map[])

  /* ---------- Reservations and staging ---------- */

  predicate Holding(status: ReservationStatus) {
    status == Active || status == PartiallyConsumed || status == ReconciliationHold
  }

  /** The notional one reservation row holds against an account. */
  ghost function HeldWeight(rows: map<ReservationId, ReservationRow>, account: Account): ReservationId -> int {
    (id: ReservationId) =>
      if id in rows && Holding(rows[id].status) && rows[id].reservation.accountId == account
      then rows[id].reservation.notional else 0
  }

  /** The notional an account has reserved. */
  ghost function HeldNotional(rows: map<ReservationId, ReservationRow>, account: Account): int {
    Sum(rows.Keys, HeldWeight(rows, account))
  }

  predicate DecisionTaken(rows: map<ReservationId, ReservationRow>, decision: Digest) {
    exists id :: id in rows && id.decisionId == decision
  }

  function HasIntent(db: Tables, id: IntentId): bool {
    id.key in db.intents && db.intents[id.key].intent.id == id
  }

  /** A new intent row needs its key, decision and reservation to be unused. */
  predicate IntentSlotFree(db: Tables, id: IntentId) {
    id.key !in db.intents
    && forall k :: k in db.intents ==> k.decisionId != id.key.decisionId && db.intents[k].intent.id.reservationId != id.reservationId
  }

  function Bump(row: IntentRow, status: ExecutionStatus): IntentRow {
    row.(status := status, version := row.version + 1)
  }

  /** Puts the submit command of an intent in the outbox, once. */
  function Enqueue(db: Tables, intent: ExecutionIntent): Result<Tables> {
    var k := intent.Key();
    if k in db.outbox && db.outbox[k].intent.id == intent.id && db.outbox[k].intent != intent then Err(ImmutableConflict)
    else
      Ok(db.(
        outbox := if k in db.outbox then db.outbox else db.outbox[k := OutboxRow(intent, Pending, None, None)],
        outboxOrder := if k in db.outbox then db.outboxOrder else db.outboxOrder + [k],
        intents :=
          if HasIntent(db, intent.id) && (db.intents[k].status == Approved || db.intents[k].status == ApprovalPending)
          then db.intents[k := Bump(db.intents[k], Outboxed)] else db.intents))
  }

  predicate StageBinds(capsule: DecisionCapsule, reservation: RiskReservation, intent: ExecutionIntent) {
    && reservation.id.decisionId == capsule.decisionId
    && reservation.status == Active
    && reservation.expiresAt > intent.createdAt
    && intent.Key().decisionId == capsule.decisionId
    && intent.id.reservationId == reservation.id
    && intent.Quantity() <= reservation.quantityReserved
    && (intent.status == Approved || intent.status == ApprovalPending)
  }

  /** The rows staging inserts: a reservation for a new decision, and its intent. */
  function WithPair(db: Tables, capsule: DecisionCapsule, reservation: RiskReservation, intent: ExecutionIntent): Tables {
    db.(
      capsules := db.capsules[capsule.decisionId := capsule],
      reservations :=
        if DecisionTaken(db.reservations, reservation.id.decisionId) then db.reservations
        else db.reservations[reservation.id := ReservationRow(reservation, reservation.status, reservation.quantityConsumed)],
      intents :=
        if IntentSlotFree(db, intent.id) then db.intents[intent.Key() := IntentRow(intent, intent.status, 0, None, 0, 1)]
        else db.intents)
  }

  /** What staging writes once its checks have passed. */
  function StageRows(db: Tables, capsule: DecisionCapsule, reservation: RiskReservation, intent: ExecutionIntent): Result<Tables> {
    if capsule.decisionId in db.capsules && db.capsules[capsule.decisionId] != capsule then Err(ImmutableConflict)
    else if reservation.id in db.reservations && db.reservations[reservation.id].reservation != reservation then Err(ImmutableConflict)
    else if HasIntent(db, intent.id) && db.intents[intent.Key()].intent != intent then Err(ImmutableConflict)
    else if intent.status == Approved then Enqueue(WithPair(db, capsule, reservation, intent), intent)
    else Ok(WithPair(db, capsule, reservation, intent))
  }

  ghost function Stage(db: Tables, capsule: DecisionCapsule, reservation: RiskReservation, intent: ExecutionIntent): Outcome<()> {
    if !StageBinds(capsule, reservation, intent) then Outcome(db, Err(UnboundIntent))
    else if AnyBlocking(db.gate.tickets) then Outcome(db, Err(Frozen))
    else if HeldNotional(db.reservations - {reservation.id}, reservation.accountId) + reservation.notional > reservation.capacity
      then Outcome(db, Err(CapacityExceeded))
    else match StageRows(db, capsule, reservation, intent)
      case Err(e) => Outcome(db, Err(e))
      case Ok(staged) => Outcome(staged, Ok(()))
  }

  /* ---------- Approval and arming ---------- */

  function Approve(db: Tables, id: IntentId, actor: Name, at: Time): Outcome<Approval> {
    var k := id.key;
    if AnyBlocking(db.gate.tickets) then Outcome(db, Err(Frozen))
    else if !HasIntent(db, id) then Outcome(db, Err(UnknownIntent))
    else if db.intents[k].status !in {ApprovalPending, Approved, Outboxed} then Outcome(db, Err(NotApprovalPending))
    else if id.reservationId !in db.reservations then Outcome(db, Err(MissingReservation))
    else
      var reservation := db.reservations[id.reservationId].reservation;
      var approval := Approval(actor, at, reservation.expiresAt, db.intents[k].intent, reservation, db.intents[k].version);
      if reservation.expiresAt <= at then Outcome(db, Err(ReservationExpired))
      else if k in db.approvals && db.approvals[k] != approval then Outcome(db, Err(DifferentApproval))
      else
        Outcome(
          db.(approvals := db.approvals[k := approval], intents := db.intents[k := Bump(db.intents[k], Approved)]),
          Ok(approval))
  }

  /** The newest ACTIVE arm, as a position in the rows of one intent. */
  function ActiveArm(arms: seq<Arm>): (r: Option<nat>)
    ensures r.Some? ==> r.value < |arms| && arms[r.value].status == ArmActive
    ensures r.Some? ==> forall i :: r.value < i < |arms| ==> arms[i].status != ArmActive
    ensures r.None? ==> forall i :: 0 <= i < |arms| ==> arms[i].status != ArmActive
  {
    if arms == [] then None
    else if arms[|arms| - 1].status == ArmActive then Some(|arms| - 1)
    else ActiveArm(arms[..|arms| - 1])
  }

  function MaxVersion(arms: seq<Arm>): nat {
    if arms == [] then 0 else Max(MaxVersion(arms[..|arms| - 1]), arms[|arms| - 1].version)
  }

  function ArmsOf(db: Tables, k: ClientOrderKey): seq<Arm> { Lookup(db.arms, k, []) }

  function WithArmStatus(arms: seq<Arm>, i: nat, status: ArmStatus): seq<Arm>
    requires i < |arms|
  {
    arms[i := arms[i].(status := status)]
  }

  /** A rejection that leaves a freeze ticket behind commits before it raises. */
  function FreezeAndRefuse<T>(db: Tables, reason: FreezeReason, source: TicketSource, at: Time, error: Error): Outcome<T> {
    match OpenTicket(db.gate, reason, source, Blocking, at, true)
    case Err(e) => Outcome(db, Err(e))
    case Ok(gate) => Outcome(db.(gate := gate), Err(error))
  }

  function QuoteBindingFor(intent: ExecutionIntent, currency: Currency, maxDriftBps: real): QuoteBinding {
    QuoteBinding(Some(intent.Key().instrument), Some(currency), Some(intent.Key().limitPrice), Some(intent.Key().side), Some(maxDriftBps))
  }

  function ArmExpiry(request: ArmRequest, quote: QuoteSnapshot, authority: AuthorityRow, reservation: RiskReservation, approval: Approval): Time {
    Min(request.expiresAt,
        Min(ValidUntil(quote, request.policy),
            Min(authority.asOf + request.authorityMaxAge, Min(reservation.expiresAt, approval.expiresAt))))
  }

  function ArmApprovedIntent(db: Tables, id: IntentId, request: ArmRequest, at: Time): Outcome<nat> {
    var k := id.key;
    if AnyBlocking(db.gate.tickets) then Outcome(db, Err(Frozen))
    else if !HasIntent(db, id) then Outcome(db, Err(UnknownIntent))
    else if db.intents[k].status !in {Approved, Outboxed} then Outcome(db, Err(NotApproved))
    else if request.expiresAt <= at then Outcome(db, Err(ArmExpired))
    else if request.maxDriftBps > 10.0 then Outcome(db, Err(DriftExceedsPolicy))
    else if request.authorityId !in db.authorities then Outcome(db, Err(AuthorityUnknown))
    else
      var authority := db.authorities[request.authorityId];
      if at < authority.asOf || at - authority.asOf > request.authorityMaxAge then
        FreezeAndRefuse(db, BrokerAuthorityStale, ApprovalArmSource, at, AuthorityStale)
      else if !authority.complete then Outcome(db, Err(AuthorityIncomplete))
      else if request.quoteId !in db.quotes then Outcome(db, Err(QuoteUnknown))
      else
        var quote := db.quotes[request.quoteId];
        var intent := db.intents[k].intent;
        match EvaluateQuoteAdmission(quote, at, request.policy, QuoteBindingFor(intent, authority.baseCurrency, request.maxDriftBps))
        case Err(e) => Outcome(db, Err(e))
        case Ok(admission) =>
          if ObservedStale in admission.reasons then
            FreezeAndRefuse(db, MarketQuoteStale, ApprovalArmSource, at, QuoteStale)
          else if !admission.eligible then Outcome(db, Err(QuoteRejected))
          else ArmedOnEvidence(db, id, request, authority, quote, at)
  }

  /** Fresh evidence is bound until the earliest of its upstream expiries. */
  function ArmedOnEvidence(db: Tables, id: IntentId, request: ArmRequest, authority: AuthorityRow, quote: QuoteSnapshot, at: Time): Outcome<nat>
    requires id.key in db.intents
  {
    var k := id.key;
    if k !in db.approvals then Outcome(db, Err(ApprovalMissing))
    else if id.reservationId !in db.reservations then Outcome(db, Err(MissingReservation))
    else
      var expiresAt := ArmExpiry(request, quote, authority, db.reservations[id.reservationId].reservation, db.approvals[k]);
      if expiresAt <= at then Outcome(db, Err(UpstreamExpired))
      else
        InstallArm(db, k, ArmBinding(db.intents[k].intent, request, authority.semanticHash, quote.rawHash,
                                     if k.side == Buy then quote.ask else quote.bid, at, expiresAt), at)
  }

  /** Replaces the ACTIVE arm, if any, by the next version; an identical binding is returned as it is. */
  function InstallArm(db: Tables, k: ClientOrderKey, binding: ArmBinding, at: Time): Outcome<nat> {
    var arms := ArmsOf(db, k);
    var active := ActiveArm(arms);
    if active.Some? && arms[active.value].binding == binding then Outcome(db, Ok(arms[active.value].version))
    else
      var retired :=
        if active.None? then arms
        else arms[active.value := arms[active.value].(
          status := if arms[active.value].binding.expiresAt <= at then ArmExpiredStatus else ArmSuperseded)];
      var version := MaxVersion(arms) + 1;
      match Enqueue(db, binding.intent)
      case Err(e) => Outcome(db, Err(e))
      case Ok(queued) => Outcome(queued.(arms := db.arms[k := retired + [Arm(binding, version, ArmActive)]]), Ok(version))
  }

  function RecordQuote(db: Tables, quote: QuoteSnapshot): Tables {
    db.(quotes := if quote.id in db.quotes then db.quotes else db.quotes[quote.id := quote])
  }

  /** Only a converged snapshot with complete components becomes an authority. */
  function RecordAuthority(db: Tables, certificate: Digest, row: AuthorityRow, status: RunStatus): Outcome<bool> {
    if status == Converged && row.complete then Outcome(db.(authorities := db.authorities[certificate := row]), Ok(true))
    else Outcome(db, Ok(false))
  }

  /** What the newest-authority query may return: a row no other row is newer than. */
  predicate IsLatestAuthority(db: Tables, latest: Option<Digest>) {
    match latest
    case None => db.authorities == map[]
    case Some(certificate) =>
      certificate in db.authorities
      && forall c :: c in db.authorities ==> db.authorities[c].asOf <= db.authorities[certificate].asOf
  }

  /* ---------- Leases and claims ---------- */

  function AcquireLease(db: Tables, name: Name, owner: Name, at: Time, ttl: int): Outcome<ExecutionLease> {
    if name in db.leases && db.leases[name].expiresAt > at && db.leases[name].owner != owner then Outcome(db, Err(LeaseHeld))
    else
      var token := if name in db.leases then db.leases[name].fencingToken + 1 else 1;
      var lease := ExecutionLease(name, owner, token, at, at + ttl);
      Outcome(db.(leases := db.leases[name := lease]), Ok(lease))
  }

  predicate LeaseCurrent(db: Tables, lease: ExecutionLease, at: Time) {
    && lease.name in db.leases
    && db.leases[lease.name].owner == lease.owner
    && db.leases[lease.name].fencingToken == lease.fencingToken
    && db.leases[lease.name].expiresAt > at
  }

  /** The command's intent row exists. */
  predicate Joined(db: Tables, k: ClientOrderKey) {
    k in db.outbox && k in db.intents && db.intents[k].intent.id == db.outbox[k].intent.id
  }

  /** A command can be claimed when its intent and reservation rows exist. */
  predicate Claimable(db: Tables, k: ClientOrderKey) {
    && Joined(db, k) && db.outbox[k].status == Pending
    && db.intents[k].intent.id.reservationId in db.reservations
  }

  /** The oldest claimable command. */
  function FirstClaimable(db: Tables, order: seq<ClientOrderKey>): (r: Option<ClientOrderKey>)
    ensures r.Some? ==> r.value in order && Claimable(db, r.value)
    ensures r.None? ==> forall k :: k in order ==> !Claimable(db, k)
  {
    if order == [] then None
    else if Claimable(db, order[0]) then Some(order[0])
    else FirstClaimable(db, order[1..])
  }

  /** What the approval of a command requires of its arm at claim time. */
  datatype ArmVerdict = ArmNotNeeded | ArmAdmits(index: nat) | ArmRefuses(index: nat, error: Error) | ArmAbsent

  function JudgeArm(db: Tables, k: ClientOrderKey, latest: Option<Digest>, at: Time): (v: ArmVerdict)
    requires k in db.intents
    ensures v.ArmAdmits? || v.ArmRefuses? ==> v.index < |ArmsOf(db, k)|
  {
    if k !in db.approvals then ArmNotNeeded
    else
      var arms := ArmsOf(db, k);
      match ActiveArm(arms)
      case None => ArmAbsent
      case Some(i) =>
        var binding := arms[i].binding;
        var request := binding.request;
        if binding.expiresAt <= at then ArmRefuses(i, ArmMissing)
        else if request.authorityId !in db.authorities || latest != Some(request.authorityId) || request.quoteId !in db.quotes then
          ArmRefuses(i, AuthorityChanged)
        else if !Eligible(db.quotes[request.quoteId], at, request.policy,
                          QuoteBindingFor(db.intents[k].intent, db.authorities[request.authorityId].baseCurrency, request.maxDriftBps)) then
          ArmRefuses(i, QuoteRejected)
        else ArmAdmits(i)
  }

  function ExpireCommand(db: Tables, k: ClientOrderKey, at: Time): Tables
    requires Claimable(db, k)
  {
    var id := db.intents[k].intent.id;
    db.(
      outbox := db.outbox[k := db.outbox[k].(status := Delivered)],
      intents := db.intents[k := Bump(db.intents[k], Expired)],
      reservations := db.reservations[id.reservationId := db.reservations[id.reservationId].(status := ReservationExpiredStatus)],
      notes := db.notes + {OrderNote(id, ReservationExpiredNote(at))})
  }

  /** Claims a command; the arm that admitted it, if it needed one, is consumed. */
  function TakeCommand(db: Tables, k: ClientOrderKey, verdict: ArmVerdict, token: nat, at: Time): Tables
    requires Claimable(db, k)
    requires verdict.ArmAdmits? ==> verdict.index < |ArmsOf(db, k)|
  {
    db.(
      outbox := db.outbox[k := db.outbox[k].(status := Claimed, fencingToken := Some(token), claimedAt := Some(at))],
      intents := db.intents[k := Bump(db.intents[k], Submitting)],
      arms := if verdict.ArmAdmits? then db.arms[k := WithArmStatus(ArmsOf(db, k), verdict.index, ArmConsumed(at))] else db.arms)
  }

  /** `latest` is the certificate the store's newest-authority query returns. */
  function ClaimNext(db: Tables, lease: ExecutionLease, latest: Option<Digest>, at: Time): Outcome<Option<ExecutionIntent>> {
    if db.gate.frozen then Outcome(db, Err(Frozen))
    else if !LeaseCurrent(db, lease, at) then Outcome(db, Err(StaleFencingToken))
    else match FirstClaimable(db, db.outboxOrder)
      case None => Outcome(db, Ok(None))
      case Some(k) =>
        var verdict := JudgeArm(db, k, latest, at);
        if verdict.ArmAbsent? then Outcome(db, Err(ArmMissing))
        else if verdict.ArmRefuses? then
          Outcome(db.(arms := db.arms[k := WithArmStatus(ArmsOf(db, k), verdict.index, ArmExpiredStatus)]), Err(verdict.error))
        else if db.reservations[db.intents[k].intent.id.reservationId].reservation.expiresAt <= at then
          Outcome(ExpireCommand(db, k, at), Ok(None))
        else Outcome(TakeCommand(db, k, verdict, lease.fencingToken, at), Ok(Some(db.intents[k].intent)))
  }

  /* ---------- The outcome of a submit command ---------- */

  function HasCommand(db: Tables, id: IntentId): bool { id.key in db.outbox && db.outbox[id.key].intent.id == id }

  function MarkSubmissionUnknown(db: Tables, id: IntentId, reason: Name): Outcome<()> {
    if !HasCommand(db, id) then Outcome(db, Err(UnknownCommand))
    else
      Outcome(
        db.(
          outbox := db.outbox[id.key := db.outbox[id.key].(status := Unknown)],
          intents := if HasIntent(db, id) then db.intents[id.key := Bump(db.intents[id.key], SubmissionUnknown)] else db.intents,
          notes := db.notes + {OrderNote(id, SubmissionUnknownNote(reason))}),
        Ok(()))
  }

  function MarkDelivered(db: Tables, id: IntentId): Tables {
    if HasCommand(db, id) then db.(outbox := db.outbox[id.key := db.outbox[id.key].(status := Delivered)]) else db
  }

  /** The reason recorded when a claimed command is recovered after a crash. */
  const WRITER_RECOVERY: Name := 0

  predicate NeedsRecovery(db: Tables, k: ClientOrderKey) { k in db.outbox && db.outbox[k].status == Claimed }

  /** Every claimed command of the given keys becomes unknown. */
  function RecoverClaimed(db: Tables, keys: set<ClientOrderKey>): Tables {
    db.(
      outbox := map k | k in db.outbox ::
        if k in keys && NeedsRecovery(db, k) then db.outbox[k].(status := Unknown) else db.outbox[k],
      intents := map k | k in db.intents ::
        if k in keys && NeedsRecovery(db, k) && Joined(db, k)
        then Bump(db.intents[k], SubmissionUnknown) else db.intents[k],
      notes := db.notes + set k | k in db.outbox && k in keys && NeedsRecovery(db, k) ::
        OrderNote(db.outbox[k].intent.id, SubmissionUnknownNote(WRITER_RECOVERY)))
  }

  predicate Unresolved(db: Tables, k: ClientOrderKey) { k in db.outbox && db.outbox[k].status == Unknown }

  /** The broker has the order: the command was delivered after all. */
  function ResolveUnknown(db: Tables, k: ClientOrderKey, brokerOrderId: nat): Tables {
    if !Unresolved(db, k) then db
    else
      var id := db.outbox[k].intent.id;
      db.(
        outbox := db.outbox[k := db.outbox[k].(status := Delivered)],
        intents :=
          if Joined(db, k) && db.intents[k].status == SubmissionUnknown
          then db.intents[k := Bump(db.intents[k], Acknowledged).(brokerOrderId := Some(brokerOrderId))] else db.intents,
        notes := db.notes + {OrderNote(id, BrokerOrderDiscovered(brokerOrderId))})
  }

  /** A requeue is refused while the snapshot is not newer than the claim. */
  predicate TooOld(db: Tables, k: ClientOrderKey, asOf: Time) {
    Unresolved(db, k) && db.outbox[k].claimedAt.Some? && asOf <= db.outbox[k].claimedAt.value
  }

  /** The broker does not have the order: it may be sent again, if the snapshot is newer than the claim. */
  function RequeueUnknown(db: Tables, k: ClientOrderKey, asOf: Time): Outcome<bool> {
    if !Unresolved(db, k) then Outcome(db, Ok(false))
    else if TooOld(db, k, asOf) then Outcome(db, Err(SnapshotNotNewer))
    else
      var id := db.outbox[k].intent.id;
      Outcome(
        db.(
          outbox := db.outbox[k := db.outbox[k].(status := Pending, fencingToken := None, claimedAt := None)],
          intents := if Joined(db, k) then db.intents[k := Bump(db.intents[k], Outboxed)] else db.intents,
          notes := db.notes + {OrderNote(id, RequeuedAfterBrokerAbsence(asOf))}),
        Ok(true))
  }

  /* ---------- Cancels ---------- */

  predicate Terminal(status: ExecutionStatus) {
    status == Filled || status == Cancelled || status == Rejected || status == Expired
  }

  predicate LocalOnly(status: ExecutionStatus) {
    status == ApprovalPending || status == Approved || status == Outboxed
  }

  function RequestCancel(db: Tables, id: IntentId, actor: Name): Outcome<ClientOrderKey> {
    var k := id.key;
    if !HasIntent(db, id) then Outcome(db, Err(UnknownIntent))
    else if k in db.cancels then Outcome(db, Ok(k))
    else if Terminal(db.intents[k].status) then Outcome(db, Err(TerminalIntent))
    else
      var row := db.intents[k];
      var localOnly := LocalOnly(row.status);
      Outcome(
        db.(
          cancels := db.cancels[k := CancelRow(id, if localOnly then Delivered else Pending, None, actor)],
          cancelOrder := db.cancelOrder + [k],
          intents := db.intents[k := Bump(row, if localOnly then Cancelled else CancelRequested)],
          notes := db.notes + {OrderNote(id, CancelNote(actor, localOnly))},
          outbox :=
            if localOnly && HasCommand(db, id) && db.outbox[k].status == Pending
            then db.outbox[k := db.outbox[k].(status := Delivered)] else db.outbox,
          reservations :=
            if localOnly then UpdatedReservation(db.reservations, id.reservationId, row.filled, k.quantity, Cancelled)
            else db.reservations),
        Ok(k))
  }

  function FirstPendingCancel(db: Tables, order: seq<ClientOrderKey>): (r: Option<ClientOrderKey>)
    ensures r.Some? ==> r.value in db.cancels && db.cancels[r.value].status == Pending && HasIntent(db, db.cancels[r.value].intentId)
  {
    if order == [] then None
    else if order[0] in db.cancels && db.cancels[order[0]].status == Pending && HasIntent(db, db.cancels[order[0]].intentId) then
      Some(order[0])
    else FirstPendingCancel(db, order[1..])
  }

  /** Cancels are claimed under the fence even while new risk is frozen. */
  function ClaimNextCancel(db: Tables, lease: ExecutionLease, at: Time): Outcome<Option<ExecutionIntent>> {
    if !LeaseCurrent(db, lease, at) then Outcome(db, Err(StaleFencingToken))
    else match FirstPendingCancel(db, db.cancelOrder)
      case None => Outcome(db, Ok(None))
      case Some(k) =>
        var row := db.cancels[k].(status := Claimed, fencingToken := Some(lease.fencingToken));
        Outcome(db.(cancels := db.cancels[k := row]), Ok(Some(db.intents[db.cancels[k].intentId.key].intent)))
  }

  function MarkCancelUnknown(db: Tables, k: ClientOrderKey, reason: Name): Outcome<()> {
    if k !in db.cancels then Outcome(db, Err(UnknownCommand))
    else
      var id := db.cancels[k].intentId;
      Outcome(
        db.(
          cancels := db.cancels[k := db.cancels[k].(status := Unknown)],
          intents := if HasIntent(db, id) then db.intents[id.key := Bump(db.intents[id.key], CancelUnknown)] else db.intents,
          notes := db.notes + {OrderNote(id, CancelUnknownNote(reason))}),
        Ok(()))
  }

  function MarkCancelDelivered(db: Tables, k: ClientOrderKey): Tables {
    if k in db.cancels then db.(cancels := db.cancels[k := db.cancels[k].(status := Delivered)]) else db
  }

  /* ---------- Broker events ---------- */

  /** The next status of an intent; `total` is its filled quantity before the cap. */
  function StatusFor(event: BrokerEvent, total: nat, quantity: nat, current: ExecutionStatus): ExecutionStatus {
    match event.id.kind
    case Commission => current
    case Reject => if current == PartiallyFilled || current == Filled then current else Rejected
    case CancelAck => if current == Filled then current else Cancelled
    case PartialFill => if total >= quantity then Filled else PartiallyFilled
    case Fill => if total >= quantity then Filled else PartiallyFilled
    case Ack =>
      if current == PartiallyFilled || current == Filled || current == Cancelled || current == Rejected then current
      else Acknowledged
  }

  function ReservationStatusFor(filled: nat, quantity: nat, status: ExecutionStatus): ReservationStatus {
    if status == Rejected || status == Cancelled || status == Expired then Released
    else if filled == quantity then Consumed
    else if filled > 0 then PartiallyConsumed
    else Active
  }

  function UpdatedReservation(
    rows: map<ReservationId, ReservationRow>, id: ReservationId, filled: nat, quantity: nat, status: ExecutionStatus)
    : map<ReservationId, ReservationRow>
  {
    if id in rows then rows[id := rows[id].(status := ReservationStatusFor(filled, quantity, status), consumed := filled)]
    else rows
  }

  function SignedQuantity(side: Side, quantity: int): int { if side == Buy then quantity else -quantity }

  function CashEffect(event: BrokerEvent): Money {
    if event.IsFill() && event.id.fillPrice.Some?
    then -(event.id.commission as int) - SignedQuantity(event.Key().side, event.id.fillPrice.value * event.Quantity())
    else -(event.id.commission as int)
  }

  function AppliedRow(row: IntentRow, event: BrokerEvent): IntentRow {
    var quantity := event.Key().quantity;
    row.(
      status := StatusFor(event, row.filled + event.Quantity(), quantity, row.status),
      filled := Min(quantity, row.filled + event.Quantity()),
      brokerOrderId := Some(event.id.brokerOrderId),
      lastSequence := Max(row.lastSequence, event.id.sequence),
      version := row.version + 1)
  }

  function Ingest(db: Tables, event: BrokerEvent): Outcome<bool> {
    var k := event.Key();
    if event.id in db.inbox then Outcome(db, Ok(false))
    else if k !in db.intents then
      match OpenTicket(db.gate, BrokerOnlyOrderOrEvent, Legacy, Blocking, event.receivedAt, true)
      case Err(e) => Outcome(db, Err(e))
      case Ok(gate) => Outcome(db.(gate := gate, inbox := db.inbox[event.id := Orphan]), Ok(true))
    else if event.IsFill() && event.id.fillPrice.None? then Outcome(db, Err(FillWithoutPrice))
    else
      var row := AppliedRow(db.intents[k], event);
      Outcome(
        db.(
          inbox := db.inbox[event.id := Applied],
          intents := db.intents[k := row],
          reservations := UpdatedReservation(db.reservations, db.intents[k].intent.id.reservationId, row.filled, k.quantity, row.status),
          positions :=
            if event.IsFill()
            then db.positions[k.instrument := Lookup(db.positions, k.instrument, 0) + SignedQuantity(k.side, event.Quantity())]
            else db.positions,
          cashDelta := db.cashDelta + CashEffect(event),
          commissions := db.commissions + event.id.commission,
          applied := db.applied + {event}),
        Ok(true))
  }

  /* ---------- Account baseline ---------- */

  function SetBaseline(db: Tables, snapshot: BrokerSnapshot): Tables {
    db.(baseline := if db.baseline.Some? then db.baseline else Some(Baseline(snapshot.cash, snapshot.accruedCash, db.cashDelta)))
  }

  function ExpectedCash(db: Tables): Option<Money> {
    match db.baseline
    case None => None
    case Some(b) => Some(b.cash + db.cashDelta - b.projectionCashDelta)
  }
}
