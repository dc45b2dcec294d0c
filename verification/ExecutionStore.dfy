/** The durable execution store as a class: one field per table, one method per transaction. Each method is
    proved against the function of the same transaction in ControlTables. */
module ExecutionStore {
  import opened Admission
  import opened ControlModels
  import opened ControlTables
  import opened FreezeGate
  import opened Ledger
  import opened StoreInvariants
  import opened Sums

  class DurableExecutionStore {
    var gate: Gate
    var capsules: map<Digest, DecisionCapsule>
    var reservations: map<ReservationId, ReservationRow>
    var intents: map<ClientOrderKey, IntentRow>
    var approvals: map<ClientOrderKey, ControlTables.Approval>
    var arms: map<ClientOrderKey, seq<Arm>>
    var outbox: map<ClientOrderKey, OutboxRow>
    var outboxOrder: seq<ClientOrderKey>
    var cancels: map<ClientOrderKey, CancelRow>
    var cancelOrder: seq<ClientOrderKey>
    var inbox: map<EventId, InboxStatus>
    var applied: set<BrokerEvent>
    var notes: set<OrderNote>
    var positions: map<Instrument, int>
    var cashDelta: Money
    var commissions: Money
    var leases: map<Name, ExecutionLease>
    var baseline: Option<Baseline>
    var authorities: map<Digest, AuthorityRow>
    var quotes: map<Digest, QuoteSnapshot>
    var runs: map<RunId, RunStatus>
    var discrepancies: map<Discrepancy, Lifecycle>

    function State(): Tables
      reads this
    {
      Tables(
        gate, capsules, reservations, intents, approvals, arms, outbox, outboxOrder, cancels, cancelOrder, inbox, applied, notes,
        positions, cashDelta, commissions, leases, baseline, authorities, quotes, runs, discrepancies)
    }

    constructor ()
      ensures State() == NEW_TABLES && StoreInv(State())
    {
      gate := NEW_GATE;
      capsules, reservations, intents, approvals, arms := map[], map[], map[], map[], map[];
      outbox, outboxOrder, cancels, cancelOrder := map[], [], map[], [];
      inbox, applied, notes, positions := map[], {}, {}, map[];
      cashDelta, commissions, leases, baseline := 0, 0, map[], None;
      authorities, quotes, runs, discrepancies := map[], map[], map[], map[];
      new;
      hide StoreInv;
      NewStoreInv();
    }

    /* ---------- The freeze gate ---------- */

    method OpenFreezeTicket(reason: FreezeReason, source: TicketSource, severity: Severity, at: Time, inTransaction: bool)
      returns (r: Result<()>)
      modifies this`gate
      ensures var opening := OpenTicket(old(gate), reason, source, severity, at, inTransaction);
              if opening.Ok? then r.Ok? && gate == opening.value else r == Err(opening.error) && gate == old(gate)
    {
      if HasUnresolved(gate.tickets, reason, source) { return Ok(()); }
      var id := TicketDigest(reason, source, at);
      if id in gate.tickets { return Err(IntegrityError); }
      gate := Gate(true, gate.tickets[id := Ticket(reason, source, severity, false)]);
      if !inTransaction { gate := gate.(frozen := AnyBlocking(gate.tickets)); }
      r := Ok(());
    }

    method ResolveFreezeTicket(reason: FreezeReason, source: TicketSource)
      modifies this`gate
      ensures gate == ResolveTicket(old(gate), reason, source)
    {
      gate := gate.(tickets := map id | id in gate.tickets ::
        if gate.tickets[id].reason == reason && gate.tickets[id].source == source then gate.tickets[id].(resolved := true)
        else gate.tickets[id]);
    }

    /** Resolves the five tickets of a reconciliation, one after the other, and recomputes the flag. */
    method UnfreezeAfterReconciliation()
      modifies this`gate
      ensures gate == Unfreeze(old(gate))
      ensures gate.frozen <==> exists id :: id in old(gate).tickets && OpenOutsideReconciliation(old(gate).tickets[id])
    {
      hide OpenOutsideReconciliation;
      assert ResolvedAny(gate.tickets, []) == gate.tickets;
      for i := 0 to |RECONCILIATION_TICKETS|
        invariant gate == Gate(old(gate).frozen, ResolvedAny(old(gate).tickets, RECONCILIATION_TICKETS[..i]))
      {
        hide ResolvedAny;
        var pair := RECONCILIATION_TICKETS[i];
        ResolvedOneMore(old(gate).tickets, RECONCILIATION_TICKETS[..i], pair);
        assert RECONCILIATION_TICKETS[..i] + [pair] == RECONCILIATION_TICKETS[..i + 1];
        ResolveFreezeTicket(pair.0, pair.1);
      }
      assert RECONCILIATION_TICKETS[..|RECONCILIATION_TICKETS|] == RECONCILIATION_TICKETS;
      gate := gate.(frozen := AnyBlocking(gate.tickets));
      UnfreezeOpensExactly(old(gate));
    }

    /** Opening an existing database again demands a fresh startup reconciliation. */
    method ReopenDatabase(at: Time) returns (r: Result<()>)
      modifies this`gate
      ensures var reopening := Reopen(old(gate), at);
              if reopening.Ok? then r.Ok? && gate == reopening.value else r == Err(reopening.error)
    {
      if StartupRow !in gate.tickets {
        gate := gate.(tickets := gate.tickets[StartupRow := NEW_GATE.tickets[StartupRow]]);
      }
      r := OpenFreezeTicket(StartupReconciliation, System, Blocking, at, false);
    }

    /* ---------- Staging ---------- */

    /** The notional the account holds in reservations other than the given one. */
    method ReservedElsewhere(id: ReservationId, account: Account) returns (total: int)
      ensures total == HeldNotional(reservations - {id}, account)
    {
      hide Sum;
      var others := reservations - {id};
      var pending := others.Keys;
      total := 0;
      SumZero({}, HeldWeight(others, account));
      assert others.Keys - pending == {};
      while pending != {}
        invariant pending <= others.Keys
        invariant total == Sum(others.Keys - pending, HeldWeight(others, account))
        decreases pending
      {
        var next :| next in pending;
        var row := others[next];
        SumInsert(others.Keys - pending, HeldWeight(others, account), next);
        assert others.Keys - pending + {next} == others.Keys - (pending - {next});
        pending := pending - {next};
        if Holding(row.status) && row.reservation.accountId == account { total := total + row.reservation.notional; }
      }
      assert others.Keys - {} == others.Keys;
    }

    /** Puts the submit command of an intent in the outbox, once. */
    method EnqueueIntent(intent: ExecutionIntent) returns (r: Result<()>)
      modifies this`outbox, this`outboxOrder, this`intents
      ensures var queued := Enqueue(old(State()), intent);
              && r == (if queued.Ok? then Ok(()) else Err(queued.error))
              && outbox == (if queued.Ok? then queued.value.outbox else old(outbox))
              && outboxOrder == (if queued.Ok? then queued.value.outboxOrder else old(outboxOrder))
              && intents == (if queued.Ok? then queued.value.intents else old(intents))
    {
      hide Bump;
      var k := intent.Key();
      if k in outbox && outbox[k].intent.id == intent.id && outbox[k].intent != intent { return Err(ImmutableConflict); }
      if k !in outbox {
        outbox := outbox[k := OutboxRow(intent, Pending, None, None)];
        outboxOrder := outboxOrder + [k];
      }
      if k in intents && intents[k].intent.id == intent.id && (intents[k].status == Approved || intents[k].status == ApprovalPending) {
        intents := intents[k := Bump(intents[k], Outboxed)];
      }
      r := Ok(());
    }

    /** Inserts a row unless its decision already has one. */
    method InsertReservation(reservation: RiskReservation)
      modifies this`reservations
      ensures reservations == if DecisionTaken(old(reservations), reservation.id.decisionId) then old(reservations)
                              else old(reservations)[reservation.id := ReservationRow(reservation, reservation.status, reservation.quantityConsumed)]
    {
      if !DecisionTaken(reservations, reservation.id.decisionId) {
        reservations := reservations[reservation.id := ReservationRow(reservation, reservation.status, reservation.quantityConsumed)];
      }
    }

    method InsertIntent(intent: ExecutionIntent)
      modifies this`intents
      ensures intents == if IntentSlotFree(old(State()), intent.id)
                         then old(intents)[intent.Key() := IntentRow(intent, intent.status, 0, None, 0, 1)] else old(intents)
    {
      var free := intent.Key() !in intents
                  && forall k :: k in intents ==> k.decisionId != intent.Key().decisionId && intents[k].intent.id.reservationId != intent.id.reservationId;
      if free { intents := intents[intent.Key() := IntentRow(intent, intent.status, 0, None, 0, 1)]; }
    }

    /** The checks that staging makes before it writes anything. */
    method CheckStage(capsule: DecisionCapsule, reservation: RiskReservation, intent: ExecutionIntent) returns (refusal: Option<Error>)
      ensures refusal == StageRefusal(State(), capsule, reservation, intent)
    {
      hide HeldNotional, AnyBlocking;
      if !(reservation.id.decisionId == capsule.decisionId
           && reservation.status == Active
           && reservation.expiresAt > intent.createdAt
           && intent.Key().decisionId == capsule.decisionId
           && intent.id.reservationId == reservation.id
           && intent.Quantity() <= reservation.quantityReserved
           && (intent.status == Approved || intent.status == ApprovalPending)) {
        return Some(UnboundIntent);
      }
      if AnyBlocking(gate.tickets) { return Some(Frozen); }
      var existing := ReservedElsewhere(reservation.id, reservation.accountId);
      if existing + reservation.notional > reservation.capacity { return Some(CapacityExceeded); }
      if capsule.decisionId in capsules && capsules[capsule.decisionId] != capsule { return Some(ImmutableConflict); }
      if reservation.id in reservations && reservations[reservation.id].reservation != reservation { return Some(ImmutableConflict); }
      if intent.Key() in intents && intents[intent.Key()].intent.id == intent.id && intents[intent.Key()].intent != intent {
        return Some(ImmutableConflict);
      }
      refusal := None;
    }

    method WritePair(capsule: DecisionCapsule, reservation: RiskReservation, intent: ExecutionIntent)
      modifies this`capsules, this`reservations, this`intents
      ensures var paired := WithPair(old(State()), capsule, reservation, intent);
              capsules == paired.capsules && reservations == paired.reservations && intents == paired.intents
    {
      hide IntentSlotFree, DecisionTaken;
      InsertIntent(intent);
      InsertReservation(reservation);
      capsules := capsules[capsule.decisionId := capsule];
    }

    /** Stages a decision, its reservation and its intent in one transaction, rolled back when it is refused. */
    method StageDecision(capsule: DecisionCapsule, reservation: RiskReservation, intent: ExecutionIntent) returns (r: Result<()>)
      modifies this`capsules, this`reservations, this`intents, this`outbox, this`outboxOrder
      ensures var staged := Stage(old(State()), capsule, reservation, intent);
              && r == staged.result
              && capsules == staged.db.capsules && reservations == staged.db.reservations && intents == staged.db.intents
              && outbox == staged.db.outbox && outboxOrder == staged.db.outboxOrder
    {
      hide Stage, Enqueue, StageRefusal, WithPair;
      ghost var before := State();
      var refusal := CheckStage(capsule, reservation, intent);
      StageCases(before, capsule, reservation, intent);
      if refusal.Some? { return Err(refusal.value); }
      var oldCapsules, oldReservations, oldIntents := capsules, reservations, intents;
      WritePair(capsule, reservation, intent);
      ghost var paired := WithPair(before, capsule, reservation, intent);
      PairTouches(before, capsule, reservation, intent);
      assert State() == paired;
      if intent.status != Approved { return Ok(()); }
      EnqueueTouches(paired, intent);
      r := EnqueueIntent(intent);
      if r.Err? {
        capsules, reservations, intents := oldCapsules, oldReservations, oldIntents;
      }
    }

    /* ---------- Approval and arming ---------- */

    method ApproveIntent(id: IntentId, actor: Name, at: Time) returns (r: Result<ControlTables.Approval>)
      modifies this`approvals, this`intents
      ensures var approved := Approve(old(State()), id, actor, at);
              r == approved.result && approvals == approved.db.approvals && intents == approved.db.intents
    {
      hide AnyBlocking, Bump;
      var k := id.key;
      if AnyBlocking(gate.tickets) { return Err(Frozen); }
      if k !in intents || intents[k].intent.id != id { return Err(UnknownIntent); }
      var row := intents[k];
      if row.status != ApprovalPending && row.status != ExecutionStatus.Approved && row.status != Outboxed { return Err(NotApprovalPending); }
      if id.reservationId !in reservations { return Err(MissingReservation); }
      var reservation := reservations[id.reservationId].reservation;
      if reservation.expiresAt <= at { return Err(ReservationExpired); }
      var approval := ControlTables.Approval(actor, at, reservation.expiresAt, row.intent, reservation, row.version);
      if k in approvals && approvals[k] != approval { return Err(DifferentApproval); }
      approvals := approvals[k := approval];
      intents := intents[k := Bump(row, ExecutionStatus.Approved)];
      r := Ok(approval);
    }

    /** The newest ACTIVE arm, searching from the newest version down. */
    static method NewestActive(rows: seq<Arm>) returns (r: Option<nat>)
      ensures r == ActiveArm(rows)
    {
      var i := |rows|;
      assert rows[..|rows|] == rows;
      while i > 0
        invariant 0 <= i <= |rows|
        invariant ActiveArm(rows) == ActiveArm(rows[..i])
      {
        assert rows[..i][..i - 1] == rows[..i - 1];
        if rows[i - 1].status == ArmActive { return Some(i - 1); }
        i := i - 1;
      }
      r := None;
    }

    static method HighestVersion(rows: seq<Arm>) returns (v: nat)
      ensures v == MaxVersion(rows)
    {
      v := 0;
      for i := 0 to |rows|
        invariant v == MaxVersion(rows[..i])
      {
        assert rows[..i + 1][..i] == rows[..i];
        if rows[i].version > v { v := rows[i].version; }
      }
      assert rows[..|rows|] == rows;
    }

    /** Replaces the ACTIVE arm by the next version and queues the intent. */
    method WriteArm(k: ClientOrderKey, binding: ArmBinding, at: Time) returns (r: Result<nat>)
      modifies this`arms, this`outbox, this`outboxOrder, this`intents
      ensures var installed := InstallArm(old(State()), k, binding, at);
              && r == installed.result && arms == installed.db.arms && intents == installed.db.intents
              && outbox == installed.db.outbox && outboxOrder == installed.db.outboxOrder
    {
      hide ActiveArm, MaxVersion, Enqueue;
      var rows := if k in arms then arms[k] else [];
      var active := NewestActive(rows);
      if active.Some? && rows[active.value].binding == binding { return Ok(rows[active.value].version); }
      var version := HighestVersion(rows);
      if active.Some? {
        var status := if rows[active.value].binding.expiresAt <= at then ArmExpiredStatus else ArmSuperseded;
        rows := rows[active.value := rows[active.value].(status := status)];
      }
      var queued := EnqueueIntent(binding.intent);
      if queued.Err? { return Err(queued.error); }
      arms := arms[k := rows + [Arm(binding, version + 1, ArmActive)]];
      r := Ok(version + 1);
    }

    /** Opens a blocking ticket inside the transaction, commits it, and refuses. */
    method FreezeAndReject(reason: FreezeReason, at: Time, error: Error) returns (r: Result<nat>)
      modifies this`gate
      ensures var refused := FreezeAndRefuse<nat>(old(State()), reason, ApprovalArmSource, at, error);
              r == refused.result && gate == refused.db.gate
    {
      hide OpenTicket;
      var ticket := OpenFreezeTicket(reason, ApprovalArmSource, Blocking, at, true);
      if ticket.Err? { return Err(ticket.error); }
      r := Err(error);
    }

    method ArmIntent(id: IntentId, request: ArmRequest, at: Time) returns (r: Result<nat>)
      modifies this`gate, this`arms, this`outbox, this`outboxOrder, this`intents
      ensures var armed := ArmApprovedIntent(old(State()), id, request, at);
              && r == armed.result && gate == armed.db.gate && arms == armed.db.arms && intents == armed.db.intents
              && outbox == armed.db.outbox && outboxOrder == armed.db.outboxOrder
    {
      hide AnyBlocking, EvaluateQuoteAdmission, ArmedOnEvidence, FreezeAndRefuse, QuoteBindingFor;
      var k := id.key;
      if k in intents { ArmedKeepsGate(State(), id, request, at); }
      RefusalTouches(State(), BrokerAuthorityStale, at, AuthorityStale);
      RefusalTouches(State(), MarketQuoteStale, at, QuoteStale);
      if AnyBlocking(gate.tickets) { return Err(Frozen); }
      if k !in intents || intents[k].intent.id != id { return Err(UnknownIntent); }
      if intents[k].status != ExecutionStatus.Approved && intents[k].status != Outboxed { return Err(NotApproved); }
      if request.expiresAt <= at { return Err(ArmExpired); }
      if request.maxDriftBps > 10.0 { return Err(DriftExceedsPolicy); }
      if request.authorityId !in authorities { return Err(AuthorityUnknown); }
      var authority := authorities[request.authorityId];
      if at < authority.asOf || at - authority.asOf > request.authorityMaxAge {
        r := FreezeAndReject(BrokerAuthorityStale, at, AuthorityStale);
        return;
      }
      if !authority.complete { return Err(AuthorityIncomplete); }
      if request.quoteId !in quotes { return Err(QuoteUnknown); }
      var quote := quotes[request.quoteId];
      var intent := intents[k].intent;
      var admission := EvaluateQuoteAdmission(quote, at, request.policy, QuoteBindingFor(intent, authority.baseCurrency, request.maxDriftBps));
      if admission.Err? { return Err(admission.error); }
      if ObservedStale in admission.value.reasons {
        r := FreezeAndReject(MarketQuoteStale, at, QuoteStale);
        return;
      }
      if !admission.value.eligible { return Err(QuoteRejected); }
      r := ArmOnEvidence(id, request, authority, quote, at);
    }

    /** Binds the arm to the earliest of its upstream expiries. */
    method ArmOnEvidence(id: IntentId, request: ArmRequest, authority: AuthorityRow, quote: QuoteSnapshot, at: Time) returns (r: Result<nat>)
      requires id.key in intents
      modifies this`arms, this`outbox, this`outboxOrder, this`intents
      ensures var armed := ArmedOnEvidence(old(State()), id, request, authority, quote, at);
              && r == armed.result && arms == armed.db.arms && intents == armed.db.intents
              && outbox == armed.db.outbox && outboxOrder == armed.db.outboxOrder
    {
      hide ArmExpiry, InstallArm;
      var k := id.key;
      if k !in approvals { return Err(ApprovalMissing); }
      if id.reservationId !in reservations { return Err(MissingReservation); }
      var expiresAt := ArmExpiry(request, quote, authority, reservations[id.reservationId].reservation, approvals[k]);
      if expiresAt <= at { return Err(UpstreamExpired); }
      r := WriteArm(
        k, ArmBinding(intents[k].intent, request, authority.semanticHash, quote.rawHash, if k.side == Buy then quote.ask else quote.bid, at, expiresAt), at);
    }

    method RecordQuoteSnapshot(quote: QuoteSnapshot)
      modifies this`quotes
      ensures quotes == RecordQuote(old(State()), quote).quotes
    {
      if quote.id !in quotes { quotes := quotes[quote.id := quote]; }
    }

    method RecordSnapshotAuthority(certificate: Digest, row: AuthorityRow, status: RunStatus) returns (promoted: bool)
      modifies this`authorities
      ensures var recorded := RecordAuthority(old(State()), certificate, row, status);
              Ok(promoted) == recorded.result && authorities == recorded.db.authorities
    {
      promoted := status == Converged && row.complete;
      if promoted { authorities := authorities[certificate := row]; }
    }

    /* ---------- Leases ---------- */

    method TakeLease(name: Name, owner: Name, at: Time, ttl: int) returns (r: Result<ExecutionLease>)
      modifies this`leases
      ensures var taken := AcquireLease(old(State()), name, owner, at, ttl); r == taken.result && leases == taken.db.leases
      ensures r.Ok? && name in old(leases) ==> r.value.fencingToken > old(leases)[name].fencingToken
    {
      var token := 1;
      if name in leases {
        if leases[name].expiresAt > at && leases[name].owner != owner { return Err(LeaseHeld); }
        token := leases[name].fencingToken + 1;
      }
      var lease := ExecutionLease(name, owner, token, at, at + ttl);
      leases := leases[name := lease];
      r := Ok(lease);
    }

    method ValidateLease(lease: ExecutionLease, at: Time) returns (current: bool)
      ensures current == LeaseCurrent(State(), lease, at)
    {
      if lease.name !in leases { return false; }
      var row := leases[lease.name];
      current := row.owner == lease.owner && row.fencingToken == lease.fencingToken && row.expiresAt > at;
    }

    /** The newest authority; ties may go either way. */
    method LatestAuthority() returns (latest: Option<Digest>)
      ensures IsLatestAuthority(State(), latest)
    {
      latest := None;
      var pending := authorities.Keys;
      while pending != {}
        invariant pending <= authorities.Keys
        invariant latest.None? ==> pending == authorities.Keys
        invariant latest.Some? ==>
                    latest.value in authorities
                    && forall c :: c in authorities && c !in pending ==> authorities[c].asOf <= authorities[latest.value].asOf
        decreases pending
      {
        var c :| c in pending;
        pending := pending - {c};
        if latest.None? || authorities[latest.value].asOf <= authorities[c].asOf { latest := Some(c); }
      }
    }

    /* ---------- Claims ---------- */

    /** The oldest pending command whose intent and reservation rows exist. */
    method NextCommand() returns (r: Option<ClientOrderKey>)
      ensures r == FirstClaimable(State(), outboxOrder)
    {
      hide Claimable;
      for i := 0 to |outboxOrder|
        invariant FirstClaimable(State(), outboxOrder) == FirstClaimable(State(), outboxOrder[i..])
      {
        var k := outboxOrder[i];
        assert outboxOrder[i..][1..] == outboxOrder[i + 1..];
        if Claimable(State(), k) { return Some(k); }
      }
      r := None;
    }

    /** Judges the newest ACTIVE arm of an approved intent again. */
    method CheckArm(k: ClientOrderKey, latest: Option<Digest>, at: Time) returns (v: ArmVerdict)
      requires k in intents
      ensures v == JudgeArm(State(), k, latest, at)
    {
      hide EvaluateQuoteAdmission, ActiveArm, QuoteBindingFor;
      if k !in approvals { return ArmNotNeeded; }
      var rows := if k in arms then arms[k] else [];
      var active := NewestActive(rows);
      if active.None? { return ArmAbsent; }
      var i := active.value;
      var binding := rows[i].binding;
      var request := binding.request;
      if binding.expiresAt <= at { return ArmRefuses(i, ArmMissing); }
      if request.authorityId !in authorities || latest != Some(request.authorityId) || request.quoteId !in quotes {
        return ArmRefuses(i, AuthorityChanged);
      }
      var admission := EvaluateQuoteAdmission(
        quotes[request.quoteId], at, request.policy,
        QuoteBindingFor(intents[k].intent, authorities[request.authorityId].baseCurrency, request.maxDriftBps));
      if admission.Err? || !admission.value.eligible { return ArmRefuses(i, QuoteRejected); }
      v := ArmAdmits(i);
    }

    method RewriteArm(k: ClientOrderKey, i: nat, status: ArmStatus)
      requires i < |ArmsOf(State(), k)|
      modifies this`arms
      ensures arms == old(arms)[k := WithArmStatus(ArmsOf(old(State()), k), i, status)]
    {
      var rows := if k in arms then arms[k] else [];
      arms := arms[k := rows[i := rows[i].(status := status)]];
    }

    /** Claims the oldest command for the holder of the lease, or expires it with its reservation. */
    method ClaimNextCommand(lease: ExecutionLease, at: Time) returns (r: Result<Option<ExecutionIntent>>, ghost latest: Option<Digest>)
      modifies this`outbox, this`intents, this`reservations, this`arms, this`notes
      ensures IsLatestAuthority(old(State()), latest)
      ensures var claimed := ClaimNext(old(State()), lease, latest, at);
              && r == claimed.result && outbox == claimed.db.outbox && intents == claimed.db.intents
              && reservations == claimed.db.reservations && arms == claimed.db.arms && notes == claimed.db.notes
    {
      hide FirstClaimable, JudgeArm, LeaseCurrent, WithArmStatus, IsLatestAuthority, Bump, TakeCommand, ExpireCommand;
      var newest := LatestAuthority();
      latest := newest;
      if gate.frozen { return Err(Frozen), latest; }
      var current := ValidateLease(lease, at);
      if !current { return Err(StaleFencingToken), latest; }
      var next := NextCommand();
      if next.None? { return Ok(None), latest; }
      var k := next.value;
      var intent := intents[k].intent;
      var rid := intent.id.reservationId;
      var verdict := CheckArm(k, newest, at);
      ExpireComponents(State(), k, at);
      TakeComponents(State(), k, verdict, lease.fencingToken, at);
      if verdict.ArmAbsent? { return Err(ArmMissing), latest; }
      if verdict.ArmRefuses? {
        RewriteArm(k, verdict.index, ArmExpiredStatus);
        return Err(verdict.error), latest;
      }
      if reservations[rid].reservation.expiresAt <= at {
        outbox := outbox[k := outbox[k].(status := OutboxStatus.Delivered)];
        intents := intents[k := Bump(intents[k], ExecutionStatus.Expired)];
        reservations := reservations[rid := reservations[rid].(status := ReservationExpiredStatus)];
        notes := notes + {OrderNote(intent.id, ReservationExpiredNote(at))};
        return Ok(None), latest;
      }
      outbox := outbox[k := outbox[k].(status := OutboxStatus.Claimed, fencingToken := Some(lease.fencingToken), claimedAt := Some(at))];
      intents := intents[k := Bump(intents[k], Submitting)];
      if verdict.ArmAdmits? { RewriteArm(k, verdict.index, ArmConsumed(at)); }
      r := Ok(Some(intent));
    }

    /* ---------- Outcomes ---------- */

    method MarkUnknown(id: IntentId, reason: Name) returns (r: Result<()>)
      modifies this`outbox, this`intents, this`notes
      ensures var marked := MarkSubmissionUnknown(old(State()), id, reason);
              r == marked.result && outbox == marked.db.outbox && intents == marked.db.intents && notes == marked.db.notes
    {
      hide Bump;
      var k := id.key;
      if k !in outbox || outbox[k].intent.id != id { return Err(UnknownCommand); }
      outbox := outbox[k := outbox[k].(status := Unknown)];
      if k in intents && intents[k].intent.id == id { intents := intents[k := Bump(intents[k], SubmissionUnknown)]; }
      notes := notes + {OrderNote(id, SubmissionUnknownNote(reason))};
      r := Ok(());
    }

    method MarkCommandDelivered(id: IntentId)
      modifies this`outbox
      ensures outbox == MarkDelivered(old(State()), id).outbox
    {
      var k := id.key;
      if k in outbox && outbox[k].intent.id == id { outbox := outbox[k := outbox[k].(status := OutboxStatus.Delivered)]; }
    }

    /** After a crash no claimed command is assumed unsent: each becomes unknown. */
    method RecoverClaimedAsUnknown()
      modifies this`outbox, this`intents, this`notes
      ensures var recovered := RecoverClaimed(old(State()), old(outbox).Keys);
              outbox == recovered.outbox && intents == recovered.intents && notes == recovered.notes
    {
      ghost var before := State();
      var pending := outbox.Keys;
      RecoverNone(before);
      while pending != {}
        invariant pending <= before.outbox.Keys
        invariant var done := before.outbox.Keys - pending;
                  var recovered := RecoverClaimed(before, done);
                  outbox == recovered.outbox && intents == recovered.intents && notes == recovered.notes
        decreases pending
      {
        hide RecoverClaimed, Bump;
        var k :| k in pending;
        RecoverOneMore(before, before.outbox.Keys - pending, k);
        assert before.outbox.Keys - pending + {k} == before.outbox.Keys - (pending - {k});
        pending := pending - {k};
        if outbox[k].status == OutboxStatus.Claimed {
          var id := outbox[k].intent.id;
          outbox := outbox[k := outbox[k].(status := Unknown)];
          if k in intents && intents[k].intent.id == id { intents := intents[k := Bump(intents[k], SubmissionUnknown)]; }
          notes := notes + {OrderNote(id, SubmissionUnknownNote(WRITER_RECOVERY))};
        }
      }
      assert before.outbox.Keys - {} == before.outbox.Keys;
    }

    method ResolveUnknownAtBroker(k: ClientOrderKey, brokerOrderId: nat)
      modifies this`outbox, this`intents, this`notes
      ensures var settled := ResolveUnknown(old(State()), k, brokerOrderId);
              outbox == settled.outbox && intents == settled.intents && notes == settled.notes
    {
      hide Bump;
      if k in outbox && outbox[k].status == Unknown {
        var id := outbox[k].intent.id;
        if k in intents && intents[k].intent.id == id && intents[k].status == SubmissionUnknown {
          intents := intents[k := Bump(intents[k], Acknowledged).(brokerOrderId := Some(brokerOrderId))];
        }
        outbox := outbox[k := outbox[k].(status := OutboxStatus.Delivered)];
        notes := notes + {OrderNote(id, BrokerOrderDiscovered(brokerOrderId))};
      }
    }

    method RequeueUnknownAbsentAtBroker(k: ClientOrderKey, asOf: Time) returns (r: Result<bool>)
      modifies this`outbox, this`intents, this`notes
      ensures var requeued := RequeueUnknown(old(State()), k, asOf);
              r == requeued.result && outbox == requeued.db.outbox && intents == requeued.db.intents && notes == requeued.db.notes
    {
      hide Bump;
      if k !in outbox || outbox[k].status != Unknown { return Ok(false); }
      var row := outbox[k];
      if row.claimedAt.Some? && asOf <= row.claimedAt.value { return Err(SnapshotNotNewer); }
      var id := row.intent.id;
      outbox := outbox[k := row.(status := Pending, fencingToken := None, claimedAt := None)];
      if k in intents && intents[k].intent.id == id { intents := intents[k := Bump(intents[k], Outboxed)]; }
      notes := notes + {OrderNote(id, RequeuedAfterBrokerAbsence(asOf))};
      r := Ok(true);
    }

    /* ---------- Cancels ---------- */

    /** Rewrites a reservation after its intent has moved. */
    method UpdateReservation(id: ReservationId, filled: nat, quantity: nat, status: ExecutionStatus)
      modifies this`reservations
      ensures reservations == UpdatedReservation(old(reservations), id, filled, quantity, status)
    {
      if id in reservations {
        var next := Active;
        if status == Rejected || status == ExecutionStatus.Cancelled || status == ExecutionStatus.Expired {
          next := Released;
        } else if filled == quantity {
          next := Consumed;
        } else if filled > 0 {
          next := PartiallyConsumed;
        }
        reservations := reservations[id := reservations[id].(status := next, consumed := filled)];
      }
    }

    /** Cancels an intent the broker has not seen: its command and its reservation go with it. */
    method CancelBeforeBroker(id: IntentId)
      requires id.key in intents
      modifies this`outbox, this`reservations
      ensures outbox == if HasCommand(old(State()), id) && old(outbox)[id.key].status == Pending
                        then old(outbox)[id.key := old(outbox)[id.key].(status := OutboxStatus.Delivered)] else old(outbox)
      ensures reservations == UpdatedReservation(old(reservations), id.reservationId, intents[id.key].filled, id.key.quantity, ExecutionStatus.Cancelled)
    {
      hide UpdatedReservation;
      var k := id.key;
      if k in outbox && outbox[k].intent.id == id && outbox[k].status == Pending {
        outbox := outbox[k := outbox[k].(status := OutboxStatus.Delivered)];
      }
      UpdateReservation(id.reservationId, intents[k].filled, k.quantity, ExecutionStatus.Cancelled);
    }

    method RequestCancelOf(id: IntentId, actor: Name) returns (r: Result<ClientOrderKey>)
      modifies this`cancels, this`cancelOrder, this`intents, this`notes, this`outbox, this`reservations
      ensures var requested := RequestCancel(old(State()), id, actor);
              && r == requested.result && cancels == requested.db.cancels && cancelOrder == requested.db.cancelOrder
              && intents == requested.db.intents && notes == requested.db.notes && outbox == requested.db.outbox
              && reservations == requested.db.reservations
    {
      hide Bump, UpdatedReservation, HasCommand;
      var k := id.key;
      if k !in intents || intents[k].intent.id != id { return Err(UnknownIntent); }
      if k in cancels { return Ok(k); }
      var row := intents[k];
      if row.status == ExecutionStatus.Filled || row.status == ExecutionStatus.Cancelled || row.status == Rejected || row.status == ExecutionStatus.Expired {
        return Err(TerminalIntent);
      }
      var localOnly := row.status == ApprovalPending || row.status == ExecutionStatus.Approved || row.status == Outboxed;
      if localOnly { CancelBeforeBroker(id); }
      cancels := cancels[k := CancelRow(id, if localOnly then OutboxStatus.Delivered else Pending, None, actor)];
      cancelOrder := cancelOrder + [k];
      intents := intents[k := Bump(row, if localOnly then ExecutionStatus.Cancelled else CancelRequested)];
      notes := notes + {OrderNote(id, CancelNote(actor, localOnly))};
      r := Ok(k);
    }

    method NextCancel() returns (r: Option<ClientOrderKey>)
      ensures r == FirstPendingCancel(State(), cancelOrder)
    {
      for i := 0 to |cancelOrder|
        invariant FirstPendingCancel(State(), cancelOrder) == FirstPendingCancel(State(), cancelOrder[i..])
      {
        var k := cancelOrder[i];
        assert cancelOrder[i..][1..] == cancelOrder[i + 1..];
        if k in cancels && cancels[k].status == Pending && HasIntent(State(), cancels[k].intentId) { return Some(k); }
      }
      r := None;
    }

    method ClaimNextCancelCommand(lease: ExecutionLease, at: Time) returns (r: Result<Option<ExecutionIntent>>)
      modifies this`cancels
      ensures var claimed := ClaimNextCancel(old(State()), lease, at); r == claimed.result && cancels == claimed.db.cancels
    {
      hide FirstPendingCancel, LeaseCurrent;
      var current := ValidateLease(lease, at);
      if !current { return Err(StaleFencingToken); }
      var next := NextCancel();
      if next.None? { return Ok(None); }
      var k := next.value;
      var intent := intents[cancels[k].intentId.key].intent;
      cancels := cancels[k := cancels[k].(status := OutboxStatus.Claimed, fencingToken := Some(lease.fencingToken))];
      r := Ok(Some(intent));
    }

    method MarkCancelCommandUnknown(k: ClientOrderKey, reason: Name) returns (r: Result<()>)
      modifies this`cancels, this`intents, this`notes
      ensures var marked := MarkCancelUnknown(old(State()), k, reason);
              r == marked.result && cancels == marked.db.cancels && intents == marked.db.intents && notes == marked.db.notes
    {
      hide Bump;
      if k !in cancels { return Err(UnknownCommand); }
      var id := cancels[k].intentId;
      cancels := cancels[k := cancels[k].(status := Unknown)];
      if id.key in intents && intents[id.key].intent.id == id { intents := intents[id.key := Bump(intents[id.key], CancelUnknown)]; }
      notes := notes + {OrderNote(id, CancelUnknownNote(reason))};
      r := Ok(());
    }

    method MarkCancelCommandDelivered(k: ClientOrderKey)
      modifies this`cancels
      ensures cancels == MarkCancelDelivered(old(State()), k).cancels
    {
      if k in cancels { cancels := cancels[k := cancels[k].(status := OutboxStatus.Delivered)]; }
    }

    /* ---------- Broker events and projections ---------- */

    /** Adds a fill to the position, cash and commission projections. */
    method UpdateEconomicProjections(e: BrokerEvent)
      requires e.IsFill() ==> e.id.fillPrice.Some?
      modifies this`positions, this`cashDelta, this`commissions
      ensures positions == Booked(old(positions), e)
      ensures cashDelta == old(cashDelta) + CashEffect(e) && commissions == old(commissions) + e.id.commission
    {
      var k := e.Key();
      if e.IsFill() {
        var signed := if k.side == Buy then e.Quantity() else 0 - e.Quantity();
        positions := positions[k.instrument := (if k.instrument in positions then positions[k.instrument] else 0) + signed];
        var value := e.id.fillPrice.value * e.Quantity();
        cashDelta := cashDelta - (if k.side == Buy then value else -value);
      }
      cashDelta := cashDelta - e.id.commission;
      commissions := commissions + e.id.commission;
    }

    /** An event is applied once; one of an unknown order is kept as an orphan and freezes the store. */
    method IngestBrokerEvent(e: BrokerEvent) returns (r: Result<bool>)
      modifies this`gate, this`inbox, this`intents, this`reservations, this`positions, this`cashDelta, this`commissions, this`applied
      ensures var ingested := Ingest(old(State()), e);
              && r == ingested.result && gate == ingested.db.gate && inbox == ingested.db.inbox && intents == ingested.db.intents
              && reservations == ingested.db.reservations && positions == ingested.db.positions && cashDelta == ingested.db.cashDelta
              && commissions == ingested.db.commissions && applied == ingested.db.applied
    {
      hide OpenTicket, CashEffect, UpdatedReservation, StatusFor;
      var k := e.Key();
      if e.id in inbox { return Ok(false); }
      if k !in intents {
        var ticket := OpenFreezeTicket(BrokerOnlyOrderOrEvent, Legacy, Blocking, e.receivedAt, true);
        if ticket.Err? { return Err(ticket.error); }
        inbox := inbox[e.id := Orphan];
        return Ok(true);
      }
      if e.IsFill() && e.id.fillPrice.None? { return Err(FillWithoutPrice); }
      var row := intents[k];
      var total := row.filled + e.Quantity();
      var filled := Min(k.quantity, total);
      var status := StatusFor(e, total, k.quantity, row.status);
      inbox := inbox[e.id := InboxStatus.Applied];
      intents := intents[k := row.(
        status := status, filled := filled, brokerOrderId := Some(e.id.brokerOrderId),
        lastSequence := Max(row.lastSequence, e.id.sequence), version := row.version + 1)];
      UpdateReservation(row.intent.id.reservationId, filled, k.quantity, status);
      UpdateEconomicProjections(e);
      applied := applied + {e};
      r := Ok(true);
    }

    /** The books rebuilt from the log alone, in whatever order the log is read. */
    method RebuildEconomicProjection() returns (book: map<Instrument, int>, cash: Money, fees: Money)
      requires forall e :: e in applied && e.IsFill() ==> e.id.fillPrice.Some?
      ensures book == PositionBook(applied) && cash == CashFlow(applied) && fees == TotalCommission(applied)
      ensures StoreInv(State()) ==> book == positions && cash == cashDelta && fees == commissions
    {
      hide PositionBook, CashFlow, TotalCommission, CashEffect;
      EmptyLedger();
      book, cash, fees := map[], 0, 0;
      var pending := applied;
      assert applied - pending == {};
      while pending != {}
        invariant pending <= applied
        invariant book == PositionBook(applied - pending)
        invariant cash == CashFlow(applied - pending) && fees == TotalCommission(applied - pending)
        decreases pending
      {
        var e :| e in pending;
        BookInsert(applied - pending, e);
        CashInsert(applied - pending, e);
        assert applied - pending + {e} == applied - (pending - {e});
        pending := pending - {e};
        var k := e.Key();
        if e.IsFill() {
          var signed := if k.side == Buy then e.Quantity() else 0 - e.Quantity();
          book := book[k.instrument := (if k.instrument in book then book[k.instrument] else 0) + signed];
        }
        cash := cash + CashEffect(e);
        fees := fees + e.id.commission;
      }
      assert applied - {} == applied;
      if StoreInv(State()) { BooksOf(State()); }
    }

    method SetAccountBaseline(snapshot: BrokerSnapshot)
      modifies this`baseline
      ensures baseline == SetBaseline(old(State()), snapshot).baseline
    {
      if baseline.None? { baseline := Some(Baseline(snapshot.cash, snapshot.accruedCash, cashDelta)); }
    }

    method ExpectedAccountCash() returns (expected: Option<Money>)
      ensures expected == ExpectedCash(State())
    {
      if baseline.None? { return None; }
      expected := Some(baseline.value.cash + cashDelta - baseline.value.projectionCashDelta);
    }
  }

  lemma NewStoreInv()
    ensures StoreInv(NEW_TABLES)
  {
    EmptyLedger();
  }

  lemma BooksOf(db: Tables)
    requires StoreInv(db)
    ensures db.positions == PositionBook(db.applied) && db.cashDelta == CashFlow(db.applied) && db.commissions == TotalCommission(db.applied)
  {
    hide PositionBook, CashFlow, TotalCommission;
  }

  lemma TakeComponents(db: Tables, k: ClientOrderKey, verdict: ArmVerdict, token: nat, at: Time)
    requires Claimable(db, k) && (verdict.ArmAdmits? ==> verdict.index < |ArmsOf(db, k)|)
    ensures var after := TakeCommand(db, k, verdict, token, at);
            && after.outbox == db.outbox[k := db.outbox[k].(status := OutboxStatus.Claimed, fencingToken := Some(token), claimedAt := Some(at))]
            && after.intents == db.intents[k := Bump(db.intents[k], Submitting)]
            && after.arms == (if verdict.ArmAdmits? then db.arms[k := WithArmStatus(ArmsOf(db, k), verdict.index, ArmConsumed(at))] else db.arms)
            && after.reservations == db.reservations && after.notes == db.notes
  {
    hide Bump, WithArmStatus;
  }

  lemma ExpireComponents(db: Tables, k: ClientOrderKey, at: Time)
    requires Claimable(db, k)
    ensures var after := ExpireCommand(db, k, at);
            var id := db.intents[k].intent.id;
            && after.outbox == db.outbox[k := db.outbox[k].(status := OutboxStatus.Delivered)]
            && after.intents == db.intents[k := Bump(db.intents[k], ExecutionStatus.Expired)]
            && after.reservations == db.reservations[id.reservationId := db.reservations[id.reservationId].(status := ReservationExpiredStatus)]
            && after.notes == db.notes + {OrderNote(id, ReservationExpiredNote(at))}
            && after.arms == db.arms
  {
    hide Bump;
  }

  lemma RecoverNone(db: Tables)
    ensures var recovered := RecoverClaimed(db, db.outbox.Keys - db.outbox.Keys);
            recovered.outbox == db.outbox && recovered.intents == db.intents && recovered.notes == db.notes
  {
  }

  /** Recovering one more key on top of those recovered before. */
  lemma RecoverOneMore(db: Tables, done: set<ClientOrderKey>, k: ClientOrderKey)
    requires k in db.outbox && k !in done
    ensures var before, after := RecoverClaimed(db, done), RecoverClaimed(db, done + {k});
            && k in before.outbox && before.outbox[k] == db.outbox[k]
            && (k in before.intents <==> k in db.intents) && (k in db.intents ==> before.intents[k] == db.intents[k])
            && (if db.outbox[k].status != OutboxStatus.Claimed then
                  after.outbox == before.outbox && after.intents == before.intents && after.notes == before.notes
                else
                  && after.outbox == before.outbox[k := db.outbox[k].(status := Unknown)]
                  && after.intents == (if Joined(db, k) then before.intents[k := Bump(db.intents[k], SubmissionUnknown)] else before.intents)
                  && after.notes == before.notes + {OrderNote(db.outbox[k].intent.id, SubmissionUnknownNote(WRITER_RECOVERY))})
  {
    hide Bump;
  }

  lemma InstallKeepsGate(db: Tables, k: ClientOrderKey)
    ensures forall binding, at :: InstallArm(db, k, binding, at).db.gate == db.gate
  {
    hide ActiveArm, MaxVersion;
  }

  lemma ArmedKeepsGate(db: Tables, id: IntentId, request: ArmRequest, at: Time)
    requires id.key in db.intents
    ensures forall authority, quote :: ArmedOnEvidence(db, id, request, authority, quote, at).db.gate == db.gate
  {
    InstallKeepsGate(db, id.key);
    hide InstallArm, ArmExpiry;
  }

  lemma RefusalTouches(db: Tables, reason: FreezeReason, at: Time, error: Error)
    ensures var refused := FreezeAndRefuse<nat>(db, reason, ApprovalArmSource, at, error).db;
            && refused.arms == db.arms && refused.intents == db.intents
            && refused.outbox == db.outbox && refused.outboxOrder == db.outboxOrder
  {
    hide OpenTicket;
    var r := OpenTicket(db.gate, reason, ApprovalArmSource, Blocking, at, true);
    assert r.Err? || db.(gate := r.value).arms == db.arms;
  }

  lemma PairTouches(db: Tables, capsule: DecisionCapsule, reservation: RiskReservation, intent: ExecutionIntent)
    ensures var paired := WithPair(db, capsule, reservation, intent);
            paired == db.(capsules := paired.capsules, reservations := paired.reservations, intents := paired.intents)
  {
    hide DecisionTaken, IntentSlotFree;
  }

  /** Why staging is refused before it writes. */
  ghost function StageRefusal(db: Tables, capsule: DecisionCapsule, reservation: RiskReservation, intent: ExecutionIntent): Option<Error> {
    if !StageBinds(capsule, reservation, intent) then Some(UnboundIntent)
    else if AnyBlocking(db.gate.tickets) then Some(Frozen)
    else if HeldNotional(db.reservations - {reservation.id}, reservation.accountId) + reservation.notional > reservation.capacity
      then Some(CapacityExceeded)
    else if capsule.decisionId in db.capsules && db.capsules[capsule.decisionId] != capsule then Some(ImmutableConflict)
    else if reservation.id in db.reservations && db.reservations[reservation.id].reservation != reservation then Some(ImmutableConflict)
    else if HasIntent(db, intent.id) && db.intents[intent.Key()].intent != intent then Some(ImmutableConflict)
    else None
  }

  lemma StageCases(db: Tables, capsule: DecisionCapsule, reservation: RiskReservation, intent: ExecutionIntent)
    ensures var refusal := StageRefusal(db, capsule, reservation, intent);
            var paired := WithPair(db, capsule, reservation, intent);
            Stage(db, capsule, reservation, intent) ==
            if refusal.Some? then Outcome(db, Err(refusal.value))
            else if intent.status != Approved then Outcome(paired, Ok(()))
            else if Enqueue(paired, intent).Err? then Outcome(db, Err(Enqueue(paired, intent).error))
            else Outcome(Enqueue(paired, intent).value, Ok(()))
  {
    hide HeldNotional, StageBinds, AnyBlocking, WithPair, Enqueue;
  }

  lemma EnqueueTouches(db: Tables, intent: ExecutionIntent)
    ensures var queued := Enqueue(db, intent);
            queued.Ok? ==>
              queued.value == db.(outbox := queued.value.outbox, outboxOrder := queued.value.outboxOrder, intents := queued.value.intents)
  {
    hide Bump;
  }
}
