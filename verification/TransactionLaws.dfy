/** When the other transactions of the store succeed and what they write, for every store, stated on the tables. */
module TransactionLaws {
  import opened Admission
  import opened ClaimLaws
  import opened ControlModels
  import opened ControlTables
  import opened FreezeGate
  import opened Sums

  /* ---------- Leases ---------- */

  /** A lease is refused exactly while another owner's runs; otherwise it gets the next token and the asked time. */
  lemma AcquireExactly(db: Tables, name: Name, owner: Name, at: Time, ttl: int)
    ensures var r := AcquireLease(db, name, owner, at, ttl);
            var held := name in db.leases && db.leases[name].owner != owner && at < db.leases[name].expiresAt;
            && (held <==> r.result.Err?) && (held ==> r == Outcome(db, Err(LeaseHeld)))
            && (!held ==>
                  && r.db == db.(leases := db.leases[name := r.result.value])
                  && r.result.value.name == name && r.result.value.owner == owner && r.result.value.expiresAt == at + ttl
                  && r.result.value.fencingToken == 1 + if name in db.leases then db.leases[name].fencingToken else 0)
  {
  }

  /* ---------- Staging ---------- */

  /** Capsule, reservation and intent name each other, the reservation is active, outlives the intent's creation and covers
      its quantity, and the intent awaits approval or has it. */
  predicate Binds(capsule: DecisionCapsule, reservation: RiskReservation, intent: ExecutionIntent) {
    var k := intent.Key();
    && reservation.id.decisionId == capsule.decisionId == k.decisionId && intent.id.reservationId == reservation.id
    && reservation.status == Active && intent.createdAt < reservation.expiresAt && k.quantity <= reservation.quantityReserved
    && intent.status in {Approved, ApprovalPending}
  }

  /** No row of the same id says otherwise. */
  predicate Unchanged(db: Tables, capsule: DecisionCapsule, reservation: RiskReservation, intent: ExecutionIntent) {
    var k := intent.Key();
    && (capsule.decisionId in db.capsules ==> db.capsules[capsule.decisionId] == capsule)
    && (reservation.id in db.reservations ==> db.reservations[reservation.id].reservation == reservation)
    && (k in db.intents && db.intents[k].intent.id == intent.id ==> db.intents[k].intent == intent)
  }

  predicate OutboxAgrees(db: Tables, intent: ExecutionIntent) {
    var k := intent.Key();
    k in db.outbox && db.outbox[k].intent.id == intent.id ==> db.outbox[k].intent == intent
  }

  predicate BlockingTicket(db: Tables) { exists id :: id in db.gate.tickets && !db.gate.tickets[id].resolved && db.gate.tickets[id].severity == Blocking }

  lemma EnqueueRefusedExactly(db: Tables, intent: ExecutionIntent)
    ensures Enqueue(db, intent).Ok? <==> OutboxAgrees(db, intent)
  {
  }

  lemma PairLeavesOutbox(db: Tables, capsule: DecisionCapsule, reservation: RiskReservation, intent: ExecutionIntent)
    ensures WithPair(db, capsule, reservation, intent).outbox == db.outbox
    ensures OutboxAgrees(WithPair(db, capsule, reservation, intent), intent) <==> OutboxAgrees(db, intent)
  {
    hide IntentSlotFree, DecisionTaken;
  }

  lemma BindsExactly(capsule: DecisionCapsule, reservation: RiskReservation, intent: ExecutionIntent)
    ensures StageBinds(capsule, reservation, intent) <==> Binds(capsule, reservation, intent)
  {
  }

  /** Staging, exactly: it succeeds if and only if the three documents bind each other, no blocking ticket is open, what
      the account holds in other reservations and this one fit the capacity, and nothing stored contradicts them; a
      refusal writes nothing. */
  lemma StageExactly(db: Tables, capsule: DecisionCapsule, reservation: RiskReservation, intent: ExecutionIntent)
    ensures var r := Stage(db, capsule, reservation, intent);
            && (r.result.Ok? <==>
                  && Binds(capsule, reservation, intent) && !BlockingTicket(db)
                  && HeldNotional(db.reservations - {reservation.id}, reservation.accountId) + reservation.notional <= reservation.capacity
                  && Unchanged(db, capsule, reservation, intent) && (intent.status == Approved ==> OutboxAgrees(db, intent)))
            && (r.result.Err? ==> r.db == db)
  {
    hide HeldNotional, Enqueue, WithPair, Binds, StageBinds, OutboxAgrees;
    BindsExactly(capsule, reservation, intent);
    BindsStatus(capsule, reservation, intent);
    PairLeavesOutbox(db, capsule, reservation, intent);
    EnqueueRefusedExactly(WithPair(db, capsule, reservation, intent), intent);
  }

  lemma BindsStatus(capsule: DecisionCapsule, reservation: RiskReservation, intent: ExecutionIntent)
    ensures Binds(capsule, reservation, intent) ==> intent.status in {Approved, ApprovalPending}
  {
  }

  /* ---------- Approving and arming ---------- */

  predicate Stored(db: Tables, id: IntentId) { id.key in db.intents && db.intents[id.key].intent.id == id }

  /** The approval that an actor gives now. */
  function ApprovalBy(db: Tables, id: IntentId, actor: Name, at: Time): Approval
    requires Stored(db, id) && id.reservationId in db.reservations
  {
    var row, reservation := db.intents[id.key], db.reservations[id.reservationId].reservation;
    Approval(actor, at, reservation.expiresAt, row.intent, reservation, row.version)
  }

  /** An approval, exactly: it is given if and only if no blocking ticket is open, the intent is stored and waits, its
      reservation runs, and no different approval is there; it runs as long as the reservation. */
  lemma ApproveExactly(db: Tables, id: IntentId, actor: Name, at: Time)
    ensures var r := Approve(db, id, actor, at);
            && (r.result.Ok? <==>
                  && !BlockingTicket(db) && Stored(db, id) && db.intents[id.key].status in {ApprovalPending, Approved, Outboxed}
                  && id.reservationId in db.reservations && at < db.reservations[id.reservationId].reservation.expiresAt
                  && (id.key in db.approvals ==> db.approvals[id.key] == ApprovalBy(db, id, actor, at)))
            && (r.result.Err? ==> r.db == db)
            && (r.result.Ok? ==>
                  && r.result.value == ApprovalBy(db, id, actor, at)
                  && r.db == db.(approvals := db.approvals[id.key := r.result.value],
                                 intents := db.intents[id.key := db.intents[id.key].(status := Approved, version := db.intents[id.key].version + 1)]))
  {
  }

  /** The evidence an approved intent is armed on: an authority that is neither from the future nor too old and has all its
      components, and a quote that fits the intent. */
  predicate Evident(db: Tables, id: IntentId, request: ArmRequest, at: Time)
    requires Stored(db, id)
  {
    && request.authorityId in db.authorities && request.quoteId in db.quotes
    && var authority, quote := db.authorities[request.authorityId], db.quotes[request.quoteId];
    && authority.asOf <= at <= authority.asOf + request.authorityMaxAge && authority.complete
    && Matches(quote, at, request, db.intents[id.key].intent, authority.baseCurrency)
  }

  /** Every document that the arm rests on outlives this time. */
  predicate Outlives(db: Tables, id: IntentId, request: ArmRequest, t: Time)
    requires request.authorityId in db.authorities && request.quoteId in db.quotes
    requires id.key in db.approvals && id.reservationId in db.reservations
  {
    var authority, quote := db.authorities[request.authorityId], db.quotes[request.quoteId];
    && t <= request.expiresAt && t <= quote.observedAt + request.policy.maxAge && t <= quote.providerTimestamp + request.policy.maxAge
    && t <= authority.asOf + request.authorityMaxAge && t <= db.reservations[id.reservationId].reservation.expiresAt
    && t <= db.approvals[id.key].expiresAt
  }

  lemma ExpiryExactly(db: Tables, id: IntentId, request: ArmRequest, t: Time)
    requires request.authorityId in db.authorities && request.quoteId in db.quotes
    requires id.key in db.approvals && id.reservationId in db.reservations
    ensures t <= ArmExpiry(request, db.quotes[request.quoteId], db.authorities[request.authorityId],
                           db.reservations[id.reservationId].reservation, db.approvals[id.key])
            <==> Outlives(db, id, request, t)
  {
  }

  lemma InstallExactly(db: Tables, k: ClientOrderKey, binding: ArmBinding, at: Time)
    requires binding.intent.Key() == k
    ensures var r := InstallArm(db, k, binding, at);
            && (r.result.Ok? <==> OutboxAgrees(db, binding.intent) || exists i :: 0 <= i < |Rows(db, k)| && NewestActive(Rows(db, k), i) && Rows(db, k)[i].binding == binding)
            && (r.result.Ok? ==> exists i :: 0 <= i < |Rows(r.db, k)| && NewestActive(Rows(r.db, k), i) && Rows(r.db, k)[i].binding == binding)
  {
    hide ActiveArm, MaxVersion, Enqueue, OutboxAgrees;
    EnqueueRefusedExactly(db, binding.intent);
    var arms := ArmsOf(db, k);
    var active := ActiveArm(arms);
    forall i: nat
      ensures ActiveArm(arms) == Some(i) <==> NewestActive(arms, i)
    {
      NewestExactly(arms, i);
    }
    var r := InstallArm(db, k, binding, at);
    if r.result.Ok? {
      if active.Some? && arms[active.value].binding == binding {
        assert NewestActive(Rows(r.db, k), active.value);
      } else {
        assert NewestActive(Rows(r.db, k), |Rows(r.db, k)| - 1);
      }
    }
  }

  /** What arming needs before it looks at the outbox. */
  predicate Armable(db: Tables, id: IntentId, request: ArmRequest, at: Time) {
    && !BlockingTicket(db) && Stored(db, id) && db.intents[id.key].status in {Approved, Outboxed}
    && at < request.expiresAt && request.maxDriftBps <= 10.0 && Evident(db, id, request, at)
    && id.key in db.approvals && id.reservationId in db.reservations && Outlives(db, id, request, at + 1)
  }

  /** Arming, exactly: it succeeds if and only if the intent is approved, the request runs and its drift is within the
      policy, authority and quote are evident, approval and reservation are there, all of them outlive this time, and the
      command can be queued or the very arm is ACTIVE already. The ACTIVE arm then rests on exactly this evidence and
      expires with the first of its documents. */
  lemma ArmExactly(db: Tables, id: IntentId, request: ArmRequest, at: Time, t: Time)
    ensures var r := ArmApprovedIntent(db, id, request, at);
            r.result.Ok? ==>
              && Armable(db, id, request, at)
              && exists i ::
                   && 0 <= i < |Rows(r.db, id.key)| && NewestActive(Rows(r.db, id.key), i)
                   && var binding, quote := Rows(r.db, id.key)[i].binding, db.quotes[request.quoteId];
                   && binding.intent == db.intents[id.key].intent && binding.request == request && binding.armedAt == at
                   && binding.semanticHash == db.authorities[request.authorityId].semanticHash && binding.quoteHash == quote.rawHash
                   && binding.limitPrice == (if id.key.side == Buy then quote.ask else quote.bid)
                   && (t <= binding.expiresAt <==> Outlives(db, id, request, t))
    ensures Armable(db, id, request, at) && OutboxAgrees(db, db.intents[id.key].intent) ==> ArmApprovedIntent(db, id, request, at).result.Ok?
  {
    hide OpenTicket, InstallArm, ArmExpiry, Outlives, OutboxAgrees, AgeReasons, StaticReasons, NewestActive, Against;
    var k := id.key;
    if Stored(db, id) && request.authorityId in db.authorities && request.quoteId in db.quotes {
      var authority, quote, intent := db.authorities[request.authorityId], db.quotes[request.quoteId], db.intents[k].intent;
      AdmissionExactly(quote, at, request.policy, QuoteBindingFor(intent, authority.baseCurrency, request.maxDriftBps));
      if k in db.approvals && id.reservationId in db.reservations {
        var expiresAt := ArmExpiry(request, quote, authority, db.reservations[id.reservationId].reservation, db.approvals[k]);
        ExpiryExactly(db, id, request, at + 1);
        ExpiryExactly(db, id, request, t);
        InstallExactly(db, k, ArmBinding(intent, request, authority.semanticHash, quote.rawHash,
                                         if k.side == Buy then quote.ask else quote.bid, at, expiresAt), at);
      }
    }
  }

  /** What the new arm leaves of the older ones: the ACTIVE one expires if its time has come and is superseded if not, the
      others stay, and the new one has a version above them all. */
  lemma InstallWritesExactly(db: Tables, k: ClientOrderKey, binding: ArmBinding, at: Time, i: nat)
    requires binding.intent.Key() == k && InstallArm(db, k, binding, at).result.Ok?
    requires i < |Rows(db, k)| ==> NewestActive(Rows(db, k), i)
    requires i >= |Rows(db, k)| ==> forall j: nat :: !NewestActive(Rows(db, k), j)
    ensures var r, rows := InstallArm(db, k, binding, at), Rows(db, k);
            if i < |rows| && rows[i].binding == binding then r == Outcome(db, Ok(rows[i].version))
            else
              && |Rows(r.db, k)| == |rows| + 1 && Rows(r.db, k)[|rows|] == Arm(binding, r.result.value, ArmActive)
              && (forall j :: 0 <= j < |rows| ==> rows[j].version < r.result.value)
              && (r.result.value == 1 || exists j :: 0 <= j < |rows| && rows[j].version + 1 == r.result.value)
              && (forall j :: 0 <= j < |rows| && j != i ==> Rows(r.db, k)[j] == rows[j])
              && (i < |rows| ==>
                    Rows(r.db, k)[i] == rows[i].(status := if rows[i].binding.expiresAt <= at then ArmExpiredStatus else ArmSuperseded))
  {
    NewestExactly(ArmsOf(db, k), i);
    HighestExactly(ArmsOf(db, k));
    hide ActiveArm, MaxVersion, Enqueue, NewestActive;
  }

  lemma {:induction false} HighestExactly(arms: seq<Arm>)
    ensures forall j :: 0 <= j < |arms| ==> arms[j].version <= MaxVersion(arms)
    ensures MaxVersion(arms) == 0 || exists j :: 0 <= j < |arms| && arms[j].version == MaxVersion(arms)
  {
    if arms != [] {
      var n := |arms| - 1;
      HighestExactly(arms[..n]);
      assert forall j :: 0 <= j < n ==> arms[..n][j] == arms[j];
      if MaxVersion(arms) != 0 && arms[n].version != MaxVersion(arms) {
        var j :| 0 <= j < n && arms[..n][j].version == MaxVersion(arms[..n]);
        assert arms[j].version == MaxVersion(arms);
      }
    }
  }

  /** What is asked for can be looked at: nothing blocks, the intent is approved, the request runs, and the authority that it
      names is stored. */
  predicate Asked(db: Tables, id: IntentId, request: ArmRequest, at: Time) {
    && !BlockingTicket(db) && Stored(db, id) && db.intents[id.key].status in {Approved, Outboxed}
    && at < request.expiresAt && request.maxDriftBps <= 10.0 && request.authorityId in db.authorities
  }

  predicate AuthorityIsStale(db: Tables, request: ArmRequest, at: Time)
    requires request.authorityId in db.authorities
  {
    at < db.authorities[request.authorityId].asOf || db.authorities[request.authorityId].asOf + request.authorityMaxAge < at
  }

  predicate QuoteIsOld(db: Tables, request: ArmRequest, at: Time) {
    request.quoteId in db.quotes && db.quotes[request.quoteId].observedAt + request.policy.maxAge < at
  }

  /** Refused with a ticket of this reason, or, because the id of that ticket is taken, with nothing. */
  predicate RefusedWithTicket(r: Outcome<nat>, db: Tables, reason: FreezeReason, at: Time, error: Error) {
    var ticket := OpenTicket(db.gate, reason, ApprovalArmSource, Blocking, at, true);
    if ticket.Ok? then r == Outcome(db.(gate := ticket.value), Err(error)) && HasUnresolved(ticket.value.tickets, reason, ApprovalArmSource)
    else r == Outcome(db, Err(ticket.error))
  }

  /** A refused arm, exactly: a stale authority and, under a sound one, an old quote leave a ticket; every other refusal
      writes nothing. */
  lemma ArmRefusedExactly(db: Tables, id: IntentId, request: ArmRequest, at: Time)
    ensures var r := ArmApprovedIntent(db, id, request, at);
            if Asked(db, id, request, at) && AuthorityIsStale(db, request, at) then RefusedWithTicket(r, db, BrokerAuthorityStale, at, AuthorityStale)
            else if Asked(db, id, request, at) && db.authorities[request.authorityId].complete && QuoteIsOld(db, request, at)
            then RefusedWithTicket(r, db, MarketQuoteStale, at, QuoteStale)
            else r.result.Err? ==> r.db == db
  {
    hide OpenTicket, HasUnresolved, InstallArm, ArmExpiry, AgeReasons, StaticReasons, Against;
    OpenedTicket(db.gate, BrokerAuthorityStale, ApprovalArmSource, at);
    OpenedTicket(db.gate, MarketQuoteStale, ApprovalArmSource, at);
    forall binding
      ensures InstallArm(db, id.key, binding, at).result.Err? ==> InstallArm(db, id.key, binding, at).db == db
    {
      RefusedInstallWrites(db, id.key, binding, at);
    }
    if Stored(db, id) && request.authorityId in db.authorities && request.quoteId in db.quotes {
      AdmissionExactly(db.quotes[request.quoteId], at, request.policy,
                       QuoteBindingFor(db.intents[id.key].intent, db.authorities[request.authorityId].baseCurrency, request.maxDriftBps));
      OldExactly(db.quotes[request.quoteId], at, request.policy,
                 QuoteBindingFor(db.intents[id.key].intent, db.authorities[request.authorityId].baseCurrency, request.maxDriftBps));
    }
  }

  lemma OldExactly(quote: QuoteSnapshot, at: Time, policy: QuotePolicy, binding: QuoteBinding)
    ensures Against(ObservedStale, quote, at, policy, binding) <==> quote.observedAt + policy.maxAge < at
  {
  }

  lemma RefusedInstallWrites(db: Tables, k: ClientOrderKey, binding: ArmBinding, at: Time)
    ensures InstallArm(db, k, binding, at).result.Err? ==> InstallArm(db, k, binding, at).db == db
  {
    hide ActiveArm, MaxVersion, Enqueue;
  }

  lemma OpenedTicket(gate: Gate, reason: FreezeReason, source: TicketSource, at: Time)
    ensures var r := OpenTicket(gate, reason, source, Blocking, at, true);
            r.Ok? ==> HasUnresolved(r.value.tickets, reason, source)
  {
    var r := OpenTicket(gate, reason, source, Blocking, at, true);
    if r.Ok? && !HasUnresolved(gate.tickets, reason, source) {
      var id := TicketDigest(reason, source, at);
      assert id in r.value.tickets && !r.value.tickets[id].resolved;
    }
  }

  /* ---------- Cancels ---------- */

  /** A cancel request, exactly. It is refused for an unknown intent, answered again if it is there, and refused for a
      finished intent. Before the broker can have the order it cancels the intent at once, with its waiting command and
      its reservation; afterwards it queues a cancel command and only marks the intent. */
  lemma RequestExactly(db: Tables, id: IntentId, actor: Name)
    ensures var r, k := RequestCancel(db, id, actor), id.key;
            if !Stored(db, id) then r == Outcome(db, Err(UnknownIntent))
            else if k in db.cancels then r == Outcome(db, Ok(k))
            else if db.intents[k].status in {ExecutionStatus.Filled, ExecutionStatus.Cancelled, Rejected, ExecutionStatus.Expired}
            then r == Outcome(db, Err(TerminalIntent))
            else
              var row := db.intents[k];
              var early := row.status in {ApprovalPending, Approved, Outboxed};
              && r.result == Ok(k)
              && r.db.cancels == db.cancels[k := CancelRow(id, if early then OutboxStatus.Delivered else OutboxStatus.Pending, None, actor)]
              && r.db.cancelOrder == db.cancelOrder + [k]
              && r.db.intents == db.intents[k := row.(status := if early then ExecutionStatus.Cancelled else CancelRequested, version := row.version + 1)]
              && r.db.outbox == (if early && k in db.outbox && db.outbox[k].intent.id == id && db.outbox[k].status == OutboxStatus.Pending
                                 then db.outbox[k := db.outbox[k].(status := OutboxStatus.Delivered)] else db.outbox)
              && r.db.reservations == (if early && id.reservationId in db.reservations
                                       then db.reservations[id.reservationId := db.reservations[id.reservationId].(status := Released, consumed := row.filled)]
                                       else db.reservations)
  {
  }

  /** A cancel command that waits, and whose intent is stored. */
  predicate CancelReady(db: Tables, k: ClientOrderKey) {
    k in db.cancels && db.cancels[k].status == OutboxStatus.Pending && Stored(db, db.cancels[k].intentId)
  }

  ghost predicate OldestCancel(db: Tables, k: ClientOrderKey) {
    exists i :: 0 <= i < |db.cancelOrder| && db.cancelOrder[i] == k && CancelReady(db, k) && forall j :: 0 <= j < i ==> !CancelReady(db, db.cancelOrder[j])
  }

  lemma {:induction false} PendingCancelExactly(db: Tables, order: seq<ClientOrderKey>, k: ClientOrderKey)
    ensures FirstPendingCancel(db, order) == Some(k) <==>
            exists i :: 0 <= i < |order| && order[i] == k && CancelReady(db, k) && forall j :: 0 <= j < i ==> !CancelReady(db, order[j])
  {
    if order != [] {
      hide CancelReady;
      ReadyAtOnce(db, order);
      var rest := order[1..];
      PendingCancelExactly(db, rest, k);
      if i :| 0 <= i < |order| && order[i] == k && CancelReady(db, k) && forall j :: 0 <= j < i ==> !CancelReady(db, order[j]) {
        if i > 0 { assert rest[i - 1] == k && forall j :: 0 <= j < i - 1 ==> rest[j] == order[j + 1]; }
      }
      if i :| 0 <= i < |rest| && rest[i] == k && CancelReady(db, k) && forall j :: 0 <= j < i ==> !CancelReady(db, rest[j]) {
        if !CancelReady(db, order[0]) {
          assert order[i + 1] == k;
          forall j | 0 <= j < i + 1
            ensures !CancelReady(db, order[j])
          {
            if j > 0 { assert rest[j - 1] == order[j]; }
          }
        }
      }
    }
  }

  lemma ReadyAtOnce(db: Tables, order: seq<ClientOrderKey>)
    requires order != []
    ensures FirstPendingCancel(db, order) == if CancelReady(db, order[0]) then Some(order[0]) else FirstPendingCancel(db, order[1..])
  {
  }

  /** Claiming a cancel, exactly: under a running lease, frozen or not, the oldest waiting one is handed out. */
  lemma ClaimCancelExactly(db: Tables, lease: ExecutionLease, at: Time, k: ClientOrderKey)
    ensures var r := ClaimNextCancel(db, lease, at);
            && (!LeaseRuns(db, lease, at) ==> r == Outcome(db, Err(StaleFencingToken)))
            && (LeaseRuns(db, lease, at) && (forall j :: !OldestCancel(db, j)) ==> r == Outcome(db, Ok(None)))
            && (LeaseRuns(db, lease, at) && OldestCancel(db, k) ==>
                  && r.db == db.(cancels := db.cancels[k := db.cancels[k].(status := OutboxStatus.Claimed, fencingToken := Some(lease.fencingToken))])
                  && r.result == Ok(Some(db.intents[db.cancels[k].intentId.key].intent)))
  {
    hide FirstPendingCancel, CancelReady;
    LeaseExactly(db, lease, at);
    PendingCancelExactly(db, db.cancelOrder, k);
    var found := FirstPendingCancel(db, db.cancelOrder);
    if found.Some? {
      PendingCancelExactly(db, db.cancelOrder, found.value);
      assert OldestCancel(db, found.value);
    }
  }

  /* ---------- Broker events ---------- */

  /** What an event makes of the status of an intent, given what is filled with it. */
  function Becomes(e: BrokerEvent, filled: nat, quantity: nat, status: ExecutionStatus): ExecutionStatus {
    match e.id.kind
    case Commission => status
    case Ack => if status in {PartiallyFilled, ExecutionStatus.Filled, ExecutionStatus.Cancelled, Rejected} then status else Acknowledged
    case Reject => if status in {PartiallyFilled, ExecutionStatus.Filled} then status else Rejected
    case CancelAck => if status == ExecutionStatus.Filled then status else ExecutionStatus.Cancelled
    case PartialFill => if filled < quantity then PartiallyFilled else ExecutionStatus.Filled
    case Fill => if filled < quantity then PartiallyFilled else ExecutionStatus.Filled
  }

  /** The row of an intent after an event: whatever the kind, the reported quantity is added up to the ordered one. */
  predicate RowTakes(after: IntentRow, row: IntentRow, e: BrokerEvent) {
    var total := row.filled + e.id.filledQuantity;
    && after.intent == row.intent && after.brokerOrderId == Some(e.id.brokerOrderId) && after.version == row.version + 1
    && after.filled == (if total <= e.Key().quantity then total else e.Key().quantity)
    && after.status == Becomes(e, total, e.Key().quantity, row.status)
    && after.lastSequence == if row.lastSequence < e.id.sequence then e.id.sequence else row.lastSequence
  }

  lemma AppliedRowExactly(row: IntentRow, e: BrokerEvent)
    ensures RowTakes(AppliedRow(row, e), row, e)
  {
  }

  /** What an event does to the books: a fill moves the position of its instrument and pays for itself, and every event
      pays its commission. */
  predicate BooksTake(after: Tables, db: Tables, e: BrokerEvent) {
    var k := e.Key();
    var signed: int := if k.side == Buy then e.id.filledQuantity else 0 - e.id.filledQuantity;
    var fills := e.id.kind in {PartialFill, Fill};
    && after.commissions == db.commissions + e.id.commission
    && (!fills ==> after.positions == db.positions && after.cashDelta == db.cashDelta - e.id.commission)
    && (fills && e.id.fillPrice.Some? ==>
          && after.positions == db.positions[k.instrument := (if k.instrument in db.positions then db.positions[k.instrument] else 0) + signed]
          && after.cashDelta == db.cashDelta - e.id.fillPrice.value * signed - e.id.commission)
  }

  predicate Unpriced(e: BrokerEvent) { e.id.kind in {PartialFill, Fill} && e.id.fillPrice.None? }

  /** An event that is neither known nor refused is applied once to its intent and the books. */
  lemma AppliedExactly(db: Tables, e: BrokerEvent)
    requires e.id !in db.inbox && e.Key() in db.intents && !Unpriced(e)
    ensures var r, k := Ingest(db, e), e.Key();
            && r.result == Ok(true) && r.db.inbox == db.inbox[e.id := Applied] && r.db.applied == db.applied + {e}
            && k in r.db.intents && r.db.intents == db.intents[k := r.db.intents[k]]
            && RowTakes(r.db.intents[k], db.intents[k], e)
            && BooksTake(r.db, db, e)
  {
    hide UpdatedReservation, AppliedRow, RowTakes, BooksTake;
    AppliedRowExactly(db.intents[e.Key()], e);
    BooksExactly(db, e);
  }

  lemma BooksExactly(db: Tables, e: BrokerEvent)
    requires e.id !in db.inbox && e.Key() in db.intents && !Unpriced(e)
    ensures BooksTake(Ingest(db, e).db, db, e)
  {
    hide Ingest, CashEffect;
    IngestedFields(db, e);
    EffectExactly(e);
  }

  /** The money an event moves. */
  lemma EffectExactly(e: BrokerEvent)
    ensures var signed: int := if e.Key().side == Buy then e.id.filledQuantity else 0 - e.id.filledQuantity;
            var fills := e.id.kind in {PartialFill, Fill} && e.id.fillPrice.Some?;
            CashEffect(e) == (if fills then 0 - e.id.fillPrice.value * signed else 0) - e.id.commission
  {
  }

  /** The fields an applied event writes, before their meaning is spelled out. */
  lemma IngestedFields(db: Tables, e: BrokerEvent)
    requires e.id !in db.inbox && e.Key() in db.intents && !Unpriced(e)
    ensures var after, k := Ingest(db, e).db, e.Key();
            var row := AppliedRow(db.intents[k], e);
            && after.intents == db.intents[k := row]
            && after.reservations == UpdatedReservation(db.reservations, db.intents[k].intent.id.reservationId, row.filled, k.quantity, row.status)
            && after.commissions == db.commissions + e.id.commission && after.cashDelta == db.cashDelta + CashEffect(e)
            && after.positions ==
               if e.IsFill()
               then db.positions[k.instrument := Lookup(db.positions, k.instrument, 0) + SignedQuantity(k.side, e.Quantity())]
               else db.positions
  {
    assert !(e.IsFill() && e.id.fillPrice.None?);
    hide AppliedRow, UpdatedReservation, CashEffect, SignedQuantity, OpenTicket, Lookup, BrokerEvent.IsFill, BrokerEvent.Quantity;
  }

  /** An event, exactly. A known one changes nothing; one of an unknown order is kept as an orphan and freezes the store; a
      fill without a price is refused; any other is applied. */
  lemma IngestExactly(db: Tables, e: BrokerEvent)
    ensures var r := Ingest(db, e);
            && (e.id in db.inbox <==> r.result == Ok(false)) && (e.id in db.inbox ==> r.db == db)
            && (e.id !in db.inbox && e.Key() !in db.intents && r.result.Ok? ==>
                  && r.result == Ok(true) && r.db.inbox == db.inbox[e.id := Orphan] && r.db.applied == db.applied
                  && HasUnresolved(r.db.gate.tickets, BrokerOnlyOrderOrEvent, Legacy))
            && (e.id !in db.inbox && e.Key() in db.intents && Unpriced(e) ==> r == Outcome(db, Err(FillWithoutPrice)))
            && (e.id !in db.inbox && e.Key() in db.intents && !Unpriced(e) ==> r.result == Ok(true))
  {
    hide UpdatedReservation, AppliedRow, CashEffect, OpenTicket, HasUnresolved;
    if e.id !in db.inbox && e.Key() !in db.intents {
      OpenedTicket(db.gate, BrokerOnlyOrderOrEvent, Legacy, e.receivedAt);
    }
  }

  /** What an event makes of the reservation of its intent: released with it, consumed with its last fill, consumed in
      part with an earlier one, and otherwise active. */
  lemma ReservationExactly(db: Tables, e: BrokerEvent)
    requires e.id !in db.inbox && e.Key() in db.intents && !Unpriced(e)
    ensures var after, k := Ingest(db, e).db, e.Key();
            var rid := db.intents[k].intent.id.reservationId;
            if rid !in db.reservations then after.reservations == db.reservations
            else
              var row := after.intents[k];
              after.reservations == db.reservations[rid := db.reservations[rid].(
                consumed := row.filled,
                status := if row.status in {Rejected, ExecutionStatus.Cancelled, ExecutionStatus.Expired} then Released
                          else if row.filled == k.quantity then Consumed else if row.filled > 0 then PartiallyConsumed else Active)]
  {
    hide Ingest, AppliedRow, UpdatedReservation;
    IngestedFields(db, e);
    UpdatedExactly(db.reservations, db.intents[e.Key()].intent.id.reservationId, AppliedRow(db.intents[e.Key()], e), e.Key().quantity);
  }

  lemma UpdatedExactly(reservations: map<ReservationId, ReservationRow>, rid: ReservationId, row: IntentRow, quantity: nat)
    ensures var after := UpdatedReservation(reservations, rid, row.filled, quantity, row.status);
            if rid !in reservations then after == reservations
            else
              after == reservations[rid := reservations[rid].(
                consumed := row.filled,
                status := if row.status in {Rejected, ExecutionStatus.Cancelled, ExecutionStatus.Expired} then Released
                          else if row.filled == quantity then Consumed else if row.filled > 0 then PartiallyConsumed else Active)]
  {
  }
}
