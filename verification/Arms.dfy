/** Approval arms: one ACTIVE arm per intent at most, versions that count up, and evidence that is still good
    whenever an unexpired arm is claimed under the authority it was issued for. */
module Arms {
  import opened Admission
  import opened Capacity
  import opened ControlModels
  import opened ControlTables
  import opened Convergence
  import opened FreezeGate
  import opened ReconciliationModel
  import opened StoreInvariants
  import opened StoreRuns

  /* ---------- The invariant ---------- */

  predicate ActiveAt(arms: seq<Arm>, i: int) { 0 <= i < |arms| && arms[i].status == ArmActive }

  /** Versions are 1, 2, 3, ... and at most one arm is ACTIVE. */
  ghost predicate WellVersioned(arms: seq<Arm>) {
    && (forall i :: 0 <= i < |arms| ==> arms[i].version == i + 1)
    && (forall i, j :: ActiveAt(arms, i) && ActiveAt(arms, j) ==> i == j)
  }

  /** The evidence an arm was issued on is stored, was eligible when it was armed, and outlives the arm. */
  predicate Evidenced(db: Tables, k: ClientOrderKey, binding: ArmBinding) {
    var request := binding.request;
    && k in db.intents && db.intents[k].intent == binding.intent
    && binding.intent.id.reservationId in db.reservations
    && request.authorityId in db.authorities && request.quoteId in db.quotes
    && Eligible(db.quotes[request.quoteId], binding.armedAt, request.policy,
                QuoteBindingFor(binding.intent, db.authorities[request.authorityId].baseCurrency, request.maxDriftBps))
    && binding.expiresAt <= ValidUntil(db.quotes[request.quoteId], request.policy)
    && binding.expiresAt <= db.reservations[binding.intent.id.reservationId].reservation.expiresAt
  }

  predicate ArmsEvidenced(db: Tables, k: ClientOrderKey, arms: seq<Arm>) {
    forall i :: 0 <= i < |arms| ==> Evidenced(db, k, arms[i].binding)
  }

  ghost predicate ArmsInv(db: Tables) {
    forall k :: k in db.arms ==> WellVersioned(db.arms[k]) && ArmsEvidenced(db, k, db.arms[k])
  }

  /** Evidence is never removed or replaced. */
  predicate EvidenceKept(db: Tables, after: Tables) {
    && KeepsIntents(db.intents, after.intents)
    && (forall r :: r in db.reservations ==> r in after.reservations && after.reservations[r].reservation == db.reservations[r].reservation)
    && (forall c :: c in db.authorities ==> c in after.authorities && after.authorities[c] == db.authorities[c])
    && (forall q :: q in db.quotes ==> q in after.quotes && after.quotes[q] == db.quotes[q])
  }

  lemma EvidenceStays(db: Tables, after: Tables, k: ClientOrderKey, binding: ArmBinding)
    requires Evidenced(db, k, binding) && EvidenceKept(db, after)
    ensures Evidenced(after, k, binding)
  {
    hide Eligible, ValidUntil;
  }

  lemma ArmsStay(db: Tables, after: Tables, k: ClientOrderKey, arms: seq<Arm>)
    requires ArmsEvidenced(db, k, arms) && EvidenceKept(db, after)
    ensures ArmsEvidenced(after, k, arms)
  {
    hide Evidenced, EvidenceKept;
    forall i | 0 <= i < |arms|
      ensures Evidenced(after, k, arms[i].binding)
    {
      EvidenceStays(db, after, k, arms[i].binding);
    }
  }

  /* ---------- Versions ---------- */

  lemma {:induction false} MaxIsLast(arms: seq<Arm>)
    requires WellVersioned(arms)
    ensures MaxVersion(arms) == |arms|
  {
    if arms != [] {
      var rest := arms[..|arms| - 1];
      assert forall i :: ActiveAt(rest, i) ==> ActiveAt(arms, i);
      MaxIsLast(rest);
    }
  }

  /** Retiring the ACTIVE arm, if there is one, leaves none. */
  lemma RetireLeavesNone(arms: seq<Arm>, i: nat, status: ArmStatus)
    requires WellVersioned(arms) && ActiveAt(arms, i) && status != ArmActive
    ensures var after := WithArmStatus(arms, i, status);
            WellVersioned(after) && forall j :: !ActiveAt(after, j)
  {
    var after := WithArmStatus(arms, i, status);
    forall j
      ensures !ActiveAt(after, j)
    {
      if ActiveAt(after, j) { assert ActiveAt(arms, j); }
    }
  }

  lemma AppendActive(arms: seq<Arm>, arm: Arm)
    requires WellVersioned(arms) && (forall j :: !ActiveAt(arms, j))
    requires arm.version == |arms| + 1
    ensures WellVersioned(arms + [arm])
  {
    var after := arms + [arm];
    forall i, j | ActiveAt(after, i) && ActiveAt(after, j)
      ensures i == j
    {
      assert i < |arms| ==> ActiveAt(arms, i);
      assert j < |arms| ==> ActiveAt(arms, j);
    }
  }

  lemma NoneActive(arms: seq<Arm>)
    requires ActiveArm(arms).None?
    ensures forall j :: !ActiveAt(arms, j)
  {
  }

  /* ---------- Steps ---------- */

  lemma SameArmsKeep(db: Tables, after: Tables)
    requires ArmsInv(db) && EvidenceKept(db, after) && after.arms == db.arms
    ensures ArmsInv(after)
  {
    hide WellVersioned, ArmsEvidenced, EvidenceKept;
    forall k | k in after.arms
      ensures WellVersioned(after.arms[k]) && ArmsEvidenced(after, k, after.arms[k])
    {
      ArmsStay(db, after, k, db.arms[k]);
    }
  }

  lemma OneArmsKeep(db: Tables, after: Tables, k: ClientOrderKey, arms: seq<Arm>)
    requires ArmsInv(db) && EvidenceKept(db, after) && after.arms == db.arms[k := arms]
    requires WellVersioned(arms) && ArmsEvidenced(db, k, arms)
    ensures ArmsInv(after)
  {
    hide WellVersioned, ArmsEvidenced, EvidenceKept;
    forall j | j in after.arms
      ensures WellVersioned(after.arms[j]) && ArmsEvidenced(after, j, after.arms[j])
    {
      ArmsStay(db, after, j, after.arms[j]);
    }
  }

  lemma ArmsOfSound(db: Tables, k: ClientOrderKey)
    requires ArmsInv(db)
    ensures WellVersioned(ArmsOf(db, k)) && ArmsEvidenced(db, k, ArmsOf(db, k))
  {
  }

  lemma EnqueueKeepsEvidence(db: Tables, intent: ExecutionIntent)
    ensures var r := Enqueue(db, intent); r.Ok? ==> EvidenceKept(db, r.value) && r.value.arms == db.arms && r.value.authorities == db.authorities
  {
  }

  lemma RetiredEvidence(db: Tables, k: ClientOrderKey, arms: seq<Arm>, i: nat, status: ArmStatus)
    requires ArmsEvidenced(db, k, arms) && i < |arms|
    ensures ArmsEvidenced(db, k, WithArmStatus(arms, i, status))
  {
    hide Evidenced;
  }

  lemma AppendedEvidence(db: Tables, k: ClientOrderKey, arms: seq<Arm>, arm: Arm)
    requires ArmsEvidenced(db, k, arms) && Evidenced(db, k, arm.binding)
    ensures ArmsEvidenced(db, k, arms + [arm])
  {
    hide Evidenced;
  }

  /** The rows of an intent after a new arm is installed. */
  function Installed(arms: seq<Arm>, binding: ArmBinding, at: Time): seq<Arm> {
    var active := ActiveArm(arms);
    (if active.None? then arms
     else WithArmStatus(arms, active.value, if arms[active.value].binding.expiresAt <= at then ArmExpiredStatus else ArmSuperseded))
    + [Arm(binding, MaxVersion(arms) + 1, ArmActive)]
  }

  lemma InstalledSound(db: Tables, k: ClientOrderKey, arms: seq<Arm>, binding: ArmBinding, at: Time)
    requires WellVersioned(arms) && ArmsEvidenced(db, k, arms) && Evidenced(db, k, binding)
    ensures WellVersioned(Installed(arms, binding, at)) && ArmsEvidenced(db, k, Installed(arms, binding, at))
  {
    hide WellVersioned, ArmsEvidenced, Evidenced, WithArmStatus;
    var active := ActiveArm(arms);
    var arm := Arm(binding, MaxVersion(arms) + 1, ArmActive);
    MaxIsLast(arms);
    if active.None? {
      NoneActive(arms);
      AppendActive(arms, arm);
      AppendedEvidence(db, k, arms, arm);
    } else {
      var status := if arms[active.value].binding.expiresAt <= at then ArmExpiredStatus else ArmSuperseded;
      var retired := WithArmStatus(arms, active.value, status);
      RetireLeavesNone(arms, active.value, status);
      RetiredEvidence(db, k, arms, active.value, status);
      RetiredLength(arms, active.value, status);
      AppendActive(retired, arm);
      AppendedEvidence(db, k, retired, arm);
    }
  }

  lemma RetiredLength(arms: seq<Arm>, i: nat, status: ArmStatus)
    requires i < |arms|
    ensures |WithArmStatus(arms, i, status)| == |arms|
  {
  }

  /** Installing an arm whose evidence is stored. */
  lemma InstallKeeps(db: Tables, k: ClientOrderKey, binding: ArmBinding, at: Time)
    requires ArmsInv(db) && Evidenced(db, k, binding)
    ensures ArmsInv(InstallArm(db, k, binding, at).db)
  {
    hide ArmsInv, Enqueue, Evidenced, WellVersioned, ArmsEvidenced, EvidenceKept, MaxVersion;
    var r := InstallArm(db, k, binding, at);
    var queued := Enqueue(db, binding.intent);
    if r.db != db && queued.Ok? {
      ArmsOfSound(db, k);
      EnqueueKeepsEvidence(db, binding.intent);
      var arms := Installed(ArmsOf(db, k), binding, at);
      InstalledSound(db, k, ArmsOf(db, k), binding, at);
      EvidenceFrame(db, queued.value, db.arms[k := arms]);
      OneArmsKeep(db, queued.value.(arms := db.arms[k := arms]), k, arms);
    }
  }

  lemma EvidenceFrame(db: Tables, after: Tables, arms: map<ClientOrderKey, seq<Arm>>)
    requires EvidenceKept(db, after)
    ensures EvidenceKept(db, after.(arms := arms))
  {
  }

  lemma GateKeepsEvidence(db: Tables, gate: Gate)
    ensures EvidenceKept(db, db.(gate := gate))
  {
  }

  lemma ExpiryBounds(request: ArmRequest, quote: QuoteSnapshot, authority: AuthorityRow, reservation: RiskReservation, approval: Approval)
    ensures var expiresAt := ArmExpiry(request, quote, authority, reservation, approval);
            expiresAt <= ValidUntil(quote, request.policy) && expiresAt <= reservation.expiresAt
  {
  }

  lemma ArmStepKeeps(db: Tables, id: IntentId, request: ArmRequest, at: Time)
    requires ArmsInv(db)
    ensures ArmsInv(ArmApprovedIntent(db, id, request, at).db)
  {
    hide ArmsInv, OpenTicket, EvaluateQuoteAdmission, ArmExpiry, InstallArm, EvidenceKept, ValidUntil;
    TicketStepKeeps(db, BrokerAuthorityStale, ApprovalArmSource, at);
    TicketStepKeeps(db, MarketQuoteStale, ApprovalArmSource, at);
    hide FreezeAndRefuse;
    var r := ArmApprovedIntent(db, id, request, at);
    if HasIntent(db, id) && request.authorityId in db.authorities && request.quoteId in db.quotes
       && id.reservationId in db.reservations && id.key in db.approvals {
      var k := id.key;
      var quote := db.quotes[request.quoteId];
      var authority := db.authorities[request.authorityId];
      var intent := db.intents[k].intent;
      ExpiryBounds(request, quote, authority, db.reservations[id.reservationId].reservation, db.approvals[k]);
      var binding := ArmBinding(
        intent, request, authority.semanticHash, quote.rawHash, if k.side == Buy then quote.ask else quote.bid, at,
        ArmExpiry(request, quote, authority, db.reservations[id.reservationId].reservation, db.approvals[k]));
      if Eligible(quote, at, request.policy, QuoteBindingFor(intent, authority.baseCurrency, request.maxDriftBps)) {
        InstallKeeps(db, k, binding, at);
      }
    }
  }

  lemma TicketStepKeeps(db: Tables, reason: FreezeReason, source: TicketSource, at: Time)
    requires ArmsInv(db)
    ensures forall error: Error :: ArmsInv(FreezeAndRefuse<nat>(db, reason, source, at, error).db)
  {
    hide ArmsInv, OpenTicket, EvidenceKept;
    var r := OpenTicket(db.gate, reason, source, Blocking, at, true);
    if r.Ok? {
      GateKeepsEvidence(db, r.value);
      SameArmsKeep(db, db.(gate := r.value));
    }
    forall error: Error
      ensures ArmsInv(FreezeAndRefuse<nat>(db, reason, source, at, error).db)
    {
    }
  }

  /* ---------- Claims ---------- */

  lemma ExpiringKeepsEvidence(db: Tables, k: ClientOrderKey, at: Time)
    requires Claimable(db, k)
    ensures var after := ExpireCommand(db, k, at);
            EvidenceKept(db, after) && after.arms == db.arms && after.authorities == db.authorities
  {
    hide Bump;
    BumpShape(db.intents, k, ExecutionStatus.Expired);
  }

  lemma TakingKeepsEvidence(db: Tables, k: ClientOrderKey, verdict: ArmVerdict, token: nat, at: Time)
    requires Claimable(db, k) && (verdict.ArmAdmits? ==> verdict.index < |ArmsOf(db, k)|)
    ensures var after := TakeCommand(db, k, verdict, token, at);
            && EvidenceKept(db, after) && after.authorities == db.authorities
            && after.arms == (if verdict.ArmAdmits? then db.arms[k := WithArmStatus(ArmsOf(db, k), verdict.index, ArmConsumed(at))] else db.arms)
  {
    hide WithArmStatus, Bump;
    BumpShape(db.intents, k, Submitting);
  }

  lemma VerdictIsActive(db: Tables, k: ClientOrderKey, latest: Option<Digest>, at: Time)
    requires k in db.intents
    ensures var v := JudgeArm(db, k, latest, at);
            v.ArmAdmits? || v.ArmRefuses? ==> k in db.arms && ActiveAt(ArmsOf(db, k), v.index) && ActiveArm(ArmsOf(db, k)) == Some(v.index)
  {
    hide Eligible;
  }

  /** Consuming or expiring the judged arm. */
  lemma JudgedStepKeeps(db: Tables, after: Tables, k: ClientOrderKey, i: nat, status: ArmStatus)
    requires ArmsInv(db) && EvidenceKept(db, after) && ActiveAt(ArmsOf(db, k), i) && status != ArmActive
    requires after.arms == db.arms[k := WithArmStatus(ArmsOf(db, k), i, status)]
    ensures ArmsInv(after) && forall j :: !ActiveAt(ArmsOf(after, k), j)
  {
    hide ArmsInv, EvidenceKept, WellVersioned, ArmsEvidenced, WithArmStatus;
    var arms := ArmsOf(db, k);
    ArmsOfSound(db, k);
    RetireLeavesNone(arms, i, status);
    RetiredEvidence(db, k, arms, i, status);
    OneArmsKeep(db, after, k, WithArmStatus(arms, i, status));
  }

  lemma ArmsKeepEvidence(db: Tables, arms: map<ClientOrderKey, seq<Arm>>)
    ensures EvidenceKept(db, db.(arms := arms))
  {
  }

  lemma RefusedStepKeeps(db: Tables, k: ClientOrderKey, i: nat)
    requires ArmsInv(db) && ActiveAt(ArmsOf(db, k), i)
    ensures ArmsInv(db.(arms := db.arms[k := WithArmStatus(ArmsOf(db, k), i, ArmExpiredStatus)]))
  {
    hide ArmsInv, EvidenceKept, WithArmStatus;
    var arms := db.arms[k := WithArmStatus(ArmsOf(db, k), i, ArmExpiredStatus)];
    ArmsKeepEvidence(db, arms);
    JudgedStepKeeps(db, db.(arms := arms), k, i, ArmExpiredStatus);
  }

  lemma TakenStepKeeps(db: Tables, k: ClientOrderKey, verdict: ArmVerdict, token: nat, at: Time)
    requires ArmsInv(db) && Claimable(db, k) && (verdict.ArmAdmits? ==> ActiveAt(ArmsOf(db, k), verdict.index))
    ensures ArmsInv(TakeCommand(db, k, verdict, token, at))
  {
    hide ArmsInv, EvidenceKept, WithArmStatus, TakeCommand;
    TakingKeepsEvidence(db, k, verdict, token, at);
    var after := TakeCommand(db, k, verdict, token, at);
    if verdict.ArmAdmits? {
      JudgedStepKeeps(db, after, k, verdict.index, ArmConsumed(at));
    } else {
      SameArmsKeep(db, after);
    }
  }

  lemma ExpiredStepKeeps(db: Tables, k: ClientOrderKey, at: Time)
    requires ArmsInv(db) && Claimable(db, k)
    ensures ArmsInv(ExpireCommand(db, k, at))
  {
    hide ArmsInv, EvidenceKept, ExpireCommand;
    ExpiringKeepsEvidence(db, k, at);
    SameArmsKeep(db, ExpireCommand(db, k, at));
  }

  lemma ClaimStepKeeps(db: Tables, lease: ExecutionLease, latest: Option<Digest>, at: Time)
    requires ArmsInv(db)
    ensures ArmsInv(ClaimNext(db, lease, latest, at).db)
  {
    hide ArmsInv, FirstClaimable, JudgeArm, LeaseCurrent, TakeCommand, ExpireCommand, WithArmStatus, ActiveArm;
    var found := FirstClaimable(db, db.outboxOrder);
    if !db.gate.frozen && LeaseCurrent(db, lease, at) && found.Some? {
      var k := found.value;
      var verdict := JudgeArm(db, k, latest, at);
      VerdictIsActive(db, k, latest, at);
      if verdict.ArmRefuses? {
        RefusedStepKeeps(db, k, verdict.index);
      } else {
        ExpiredStepKeeps(db, k, at);
        TakenStepKeeps(db, k, verdict, lease.fencingToken, at);
      }
    }
  }

  /** Claiming the command of an approved intent consumes its one ACTIVE arm and touches no other; claiming
      one that needed no approval touches no arm. */
  lemma ClaimConsumesOneArm(db: Tables, lease: ExecutionLease, latest: Option<Digest>, at: Time)
    requires ArmsInv(db)
    requires ClaimNext(db, lease, latest, at).result.Ok? && ClaimNext(db, lease, latest, at).result.value.Some?
    ensures var after := ClaimNext(db, lease, latest, at).db;
            var k := FirstClaimable(db, db.outboxOrder).value;
            && FirstClaimable(db, db.outboxOrder).Some? && k in db.intents
            && ClaimNext(db, lease, latest, at).result.value.value == db.intents[k].intent
            && (k !in db.approvals ==> after.arms == db.arms)
            && (k in db.approvals ==>
                  && ActiveArm(ArmsOf(db, k)).Some?
                  && (forall j :: !ActiveAt(ArmsOf(after, k), j))
                  && after.arms == db.arms[k := WithArmStatus(ArmsOf(db, k), ActiveArm(ArmsOf(db, k)).value, ArmConsumed(at))])
  {
    hide ArmsInv, EvidenceKept, FirstClaimable, JudgeArm, LeaseCurrent, TakeCommand, ExpireCommand;
    hide WithArmStatus, ActiveArm;
    var found := FirstClaimable(db, db.outboxOrder);
    if !db.gate.frozen && LeaseCurrent(db, lease, at) && found.Some? {
      var k := found.value;
      var verdict := JudgeArm(db, k, latest, at);
      VerdictIsActive(db, k, latest, at);
      VerdictMeansApproved(db, k, latest, at);
      TakingKeepsEvidence(db, k, verdict, lease.fencingToken, at);
      ExpiringKeepsEvidence(db, k, at);
      if verdict.ArmAdmits? {
        JudgedStepKeeps(db, TakeCommand(db, k, verdict, lease.fencingToken, at), k, verdict.index, ArmConsumed(at));
      }
    }
  }

  lemma VerdictMeansApproved(db: Tables, k: ClientOrderKey, latest: Option<Digest>, at: Time)
    requires k in db.intents
    ensures JudgeArm(db, k, latest, at).ArmNotNeeded? <==> k !in db.approvals
  {
  }

  /* ---------- Soundness at claim time ---------- */

  /** An unexpired ACTIVE arm whose authority is still the newest passes every re-check, and the reservation it
      was issued under has not expired either. */
  lemma UnexpiredArmAdmits(db: Tables, k: ClientOrderKey, latest: Option<Digest>, at: Time)
    requires ArmsInv(db) && k in db.approvals && ActiveArm(ArmsOf(db, k)).Some?
    requires var binding := ArmsOf(db, k)[ActiveArm(ArmsOf(db, k)).value].binding;
             binding.armedAt <= at < binding.expiresAt && latest == Some(binding.request.authorityId)
    ensures k in db.intents && db.intents[k].intent.id.reservationId in db.reservations
    ensures JudgeArm(db, k, latest, at) == ArmAdmits(ActiveArm(ArmsOf(db, k)).value)
    ensures at < db.reservations[db.intents[k].intent.id.reservationId].reservation.expiresAt
  {
    hide ArmsInv, WellVersioned, Evidenced, Eligible, ValidUntil;
    ArmsOfSound(db, k);
    var i := ActiveArm(ArmsOf(db, k)).value;
    var binding := ArmsOf(db, k)[i].binding;
    assert Evidenced(db, k, binding);
    EvidenceAdmits(db, k, binding, at);
  }

  lemma EvidenceAdmits(db: Tables, k: ClientOrderKey, binding: ArmBinding, at: Time)
    requires Evidenced(db, k, binding) && binding.armedAt <= at < binding.expiresAt
    ensures k in db.intents && db.intents[k].intent == binding.intent && binding.intent.id.reservationId in db.reservations
    ensures binding.request.authorityId in db.authorities && binding.request.quoteId in db.quotes
    ensures at < db.reservations[binding.intent.id.reservationId].reservation.expiresAt
    ensures Eligible(db.quotes[binding.request.quoteId], at, binding.request.policy,
                     QuoteBindingFor(binding.intent, db.authorities[binding.request.authorityId].baseCurrency, binding.request.maxDriftBps))
  {
    hide Eligible, ValidUntil;
    EligibilityPersists(
      db.quotes[binding.request.quoteId], binding.armedAt, at, binding.request.policy,
      QuoteBindingFor(binding.intent, db.authorities[binding.request.authorityId].baseCurrency, binding.request.maxDriftBps));
  }

  /** So a worker that holds the lease of an unfrozen store gets the command. */
  lemma UnexpiredArmIsClaimed(db: Tables, lease: ExecutionLease, latest: Option<Digest>, at: Time, k: ClientOrderKey)
    requires ArmsInv(db) && !db.gate.frozen && LeaseCurrent(db, lease, at) && FirstClaimable(db, db.outboxOrder) == Some(k)
    requires k in db.approvals && ActiveArm(ArmsOf(db, k)).Some?
    requires var binding := ArmsOf(db, k)[ActiveArm(ArmsOf(db, k)).value].binding;
             binding.armedAt <= at < binding.expiresAt && latest == Some(binding.request.authorityId)
    ensures ClaimNext(db, lease, latest, at).result == Ok(Some(db.intents[k].intent))
  {
    hide ArmsInv, JudgeArm, LeaseCurrent, FirstClaimable, TakeCommand, ExpireCommand;
    UnexpiredArmAdmits(db, k, latest, at);
  }

  /* ---------- Every other transaction ---------- */

  /** Neither arms nor evidence are touched. */
  predicate Uninvolved(db: Tables, after: Tables) {
    EvidenceKept(db, after) && after.arms == db.arms && after.authorities == db.authorities
  }

  predicate SameEvidence(db: Tables, after: Tables) {
    after.authorities == db.authorities && after.quotes == db.quotes && after.arms == db.arms
  }

  lemma IntentRewritten(db: Tables, after: Tables, k: ClientOrderKey, row: IntentRow)
    requires SameEvidence(db, after) && after.reservations == db.reservations
    requires k in db.intents && row.intent == db.intents[k].intent && after.intents == db.intents[k := row]
    ensures Uninvolved(db, after)
  {
  }

  lemma NothingRewritten(db: Tables, after: Tables)
    requires SameEvidence(db, after) && after.reservations == db.reservations && after.intents == db.intents
    ensures Uninvolved(db, after)
  {
  }

  lemma UninvolvedTwice(a: Tables, b: Tables, c: Tables)
    requires Uninvolved(a, b) && Uninvolved(b, c)
    ensures Uninvolved(a, c)
  {
  }

  lemma PairUninvolved(db: Tables, capsule: DecisionCapsule, reservation: RiskReservation, intent: ExecutionIntent)
    requires StageBinds(capsule, reservation, intent)
    ensures Uninvolved(db, WithPair(db, capsule, reservation, intent))
  {
    hide StageBinds;
    if IntentSlotFree(db, intent.id) { SlotIsFree(db, intent.id); }
    hide IntentSlotFree;
  }

  lemma StageUninvolved(db: Tables, capsule: DecisionCapsule, reservation: RiskReservation, intent: ExecutionIntent)
    ensures Uninvolved(db, Stage(db, capsule, reservation, intent).db)
  {
    hide Uninvolved, WithPair, Enqueue, HeldNotional;
    NothingRewritten(db, db);
    if StageBinds(capsule, reservation, intent) {
      var paired := WithPair(db, capsule, reservation, intent);
      PairUninvolved(db, capsule, reservation, intent);
      EnqueueUninvolved(paired, intent);
      var r := Enqueue(paired, intent);
      if r.Ok? { UninvolvedTwice(db, paired, r.value); }
    }
  }

  lemma EnqueueUninvolved(db: Tables, intent: ExecutionIntent)
    ensures var r := Enqueue(db, intent); r.Ok? ==> Uninvolved(db, r.value)
  {
    EnqueueKeepsEvidence(db, intent);
    hide Enqueue, EvidenceKept;
  }

  lemma ApproveUninvolved(db: Tables, id: IntentId, actor: Name, at: Time)
    ensures Uninvolved(db, Approve(db, id, actor, at).db)
  {
    hide Uninvolved;
    NothingRewritten(db, db);
    var r := Approve(db, id, actor, at);
    if r.result.Ok? { IntentRewritten(db, r.db, id.key, Bump(db.intents[id.key], ExecutionStatus.Approved)); }
  }

  lemma MarkUnknownUninvolved(db: Tables, id: IntentId, reason: Name)
    ensures Uninvolved(db, MarkSubmissionUnknown(db, id, reason).db)
  {
    hide Uninvolved;
    NothingRewritten(db, db);
    if HasCommand(db, id) {
      var after := MarkSubmissionUnknown(db, id, reason).db;
      if HasIntent(db, id) { IntentRewritten(db, after, id.key, Bump(db.intents[id.key], SubmissionUnknown)); } else { NothingRewritten(db, after); }
    }
  }

  lemma CancelUninvolved(db: Tables, id: IntentId, actor: Name)
    ensures Uninvolved(db, RequestCancel(db, id, actor).db)
  {
    hide Uninvolved, UpdatedReservation, Bump;
    NothingRewritten(db, db);
    if HasIntent(db, id) && id.key !in db.cancels && !Terminal(db.intents[id.key].status) {
      var row := db.intents[id.key];
      var status := if LocalOnly(row.status) then ExecutionStatus.Cancelled else CancelRequested;
      BumpShape(db.intents, id.key, status);
      UpdatedKeepsReservations(db.reservations, id.reservationId, row.filled, id.key.quantity, ExecutionStatus.Cancelled);
      RowsRewritten(db, RequestCancel(db, id, actor).db, id.key, Bump(row, status));
    }
  }

  lemma MarkCancelUninvolved(db: Tables, k: ClientOrderKey, reason: Name)
    ensures Uninvolved(db, MarkCancelUnknown(db, k, reason).db)
  {
    hide Uninvolved;
    NothingRewritten(db, db);
    if k in db.cancels {
      var id := db.cancels[k].intentId;
      var after := MarkCancelUnknown(db, k, reason).db;
      if HasIntent(db, id) { IntentRewritten(db, after, id.key, Bump(db.intents[id.key], CancelUnknown)); } else { NothingRewritten(db, after); }
    }
  }

  lemma RecoverUninvolved(db: Tables)
    ensures Uninvolved(db, RecoverClaimed(db, db.outbox.Keys))
  {
    hide RecoverClaimed, OutboxFiled;
    RecoverRelabels(db);
    RelabelingCarries(db, RecoverClaimed(db, db.outbox.Keys));
    RecoverEvidence(db);
  }

  lemma RecoverEvidence(db: Tables)
    ensures SameEvidence(db, RecoverClaimed(db, db.outbox.Keys))
  {
  }

  lemma ResolveUninvolved(db: Tables, k: ClientOrderKey, brokerOrderId: nat)
    ensures Uninvolved(db, ResolveUnknown(db, k, brokerOrderId))
  {
    hide Uninvolved;
    NothingRewritten(db, db);
    if Unresolved(db, k) {
      var after := ResolveUnknown(db, k, brokerOrderId);
      if Joined(db, k) && db.intents[k].status == SubmissionUnknown {
        IntentRewritten(db, after, k, Bump(db.intents[k], Acknowledged).(brokerOrderId := Some(brokerOrderId)));
      } else {
        NothingRewritten(db, after);
      }
    }
  }

  lemma RequeueUninvolved(db: Tables, k: ClientOrderKey, asOf: Time)
    ensures Uninvolved(db, RequeueUnknown(db, k, asOf).db)
  {
    hide Uninvolved;
    NothingRewritten(db, db);
    if Unresolved(db, k) && !TooOld(db, k, asOf) {
      var after := RequeueUnknown(db, k, asOf).db;
      if Joined(db, k) { IntentRewritten(db, after, k, Bump(db.intents[k], Outboxed)); } else { NothingRewritten(db, after); }
    }
  }

  /** One intent and one reservation rewritten. */
  lemma RowsRewritten(db: Tables, after: Tables, k: ClientOrderKey, row: IntentRow)
    requires SameEvidence(db, after) && k in db.intents && row.intent == db.intents[k].intent && after.intents == db.intents[k := row]
    requires forall r :: r in db.reservations ==> r in after.reservations && after.reservations[r].reservation == db.reservations[r].reservation
    ensures Uninvolved(db, after)
  {
  }

  lemma IngestSameEvidence(db: Tables, e: BrokerEvent)
    requires e.Key() in db.intents && e.id !in db.inbox && (e.IsFill() ==> e.id.fillPrice.Some?)
    ensures SameEvidence(db, Ingest(db, e).db)
  {
    hide AppliedRow, CashEffect, UpdatedReservation;
  }

  lemma IngestReservationsKept(db: Tables, e: BrokerEvent)
    requires e.Key() in db.intents && e.id !in db.inbox && (e.IsFill() ==> e.id.fillPrice.Some?)
    ensures var after := Ingest(db, e).db.reservations;
            forall r :: r in db.reservations ==> r in after && after[r].reservation == db.reservations[r].reservation
  {
    hide Ingest;
    if Rewrites(db, e) { RewrittenReservation(db, e); } else { Capacity.ReservationsKept(db, e); }
  }

  lemma IngestUninvolved(db: Tables, e: BrokerEvent)
    ensures Uninvolved(db, Ingest(db, e).db)
  {
    hide Uninvolved, AppliedRow;
    if e.Key() !in db.intents {
      OrphanUninvolved(db, e);
    } else if e.id !in db.inbox && (e.IsFill() ==> e.id.fillPrice.Some?) {
      AppliedRowIntent(db.intents[e.Key()], e);
      IngestSameEvidence(db, e);
      IngestReservationsKept(db, e);
      IngestOneIntents(db, e);
      hide Ingest;
      RowsRewritten(db, Ingest(db, e).db, e.Key(), AppliedRow(db.intents[e.Key()], e));
    } else {
      NothingRewritten(db, db);
    }
  }

  lemma OrphanUninvolved(db: Tables, e: BrokerEvent)
    requires e.Key() !in db.intents
    ensures Uninvolved(db, Ingest(db, e).db)
  {
    hide Uninvolved, OpenTicket;
    NothingRewritten(db, db);
    var r := OpenTicket(db.gate, BrokerOnlyOrderOrEvent, Legacy, Blocking, e.receivedAt, true);
    if r.Ok? { NothingRewritten(db, db.(gate := r.value, inbox := db.inbox[e.id := Orphan])); }
  }

  lemma UpdatedKeepsReservations(rows: map<ReservationId, ReservationRow>, id: ReservationId, filled: nat, quantity: nat, status: ExecutionStatus)
    ensures var after := UpdatedReservation(rows, id, filled, quantity, status);
            forall r :: r in rows ==> r in after && after[r].reservation == rows[r].reservation
  {
  }

  lemma MarksUninvolved(db: Tables, op: StoreOp)
    requires op.OpMarkDelivered? || op.OpMarkCancelDelivered? || op.OpAcquireLease? || op.OpSetBaseline?
    ensures Uninvolved(db, ApplyOp(db, op))
  {
    hide Uninvolved;
    match op
    case OpMarkDelivered(id) => NothingRewritten(db, db.(outbox := MarkDelivered(db, id).outbox));
    case OpMarkCancelDelivered(k) => NothingRewritten(db, db.(cancels := MarkCancelDelivered(db, k).cancels));
    case OpAcquireLease(name, owner, at, ttl) => NothingRewritten(db, db.(leases := AcquireLease(db, name, owner, at, ttl).db.leases));
    case OpSetBaseline(snapshot) => NothingRewritten(db, db.(baseline := SetBaseline(db, snapshot).baseline));
  }

  lemma ClaimCancelUninvolved(db: Tables, lease: ExecutionLease, at: Time)
    ensures Uninvolved(db, ClaimNextCancel(db, lease, at).db)
  {
    hide Uninvolved, FirstPendingCancel, LeaseCurrent;
    NothingRewritten(db, db);
    NothingRewritten(db, db.(cancels := ClaimNextCancel(db, lease, at).db.cancels));
  }

  lemma GateUninvolved(db: Tables, gate: Gate)
    ensures Uninvolved(db, db.(gate := gate))
  {
    hide Uninvolved;
    NothingRewritten(db, db.(gate := gate));
  }

  lemma GateOpsUninvolved(db: Tables, op: StoreOp)
    requires op.OpReopen? || op.OpOpenTicket? || op.OpResolveTicket? || op.OpUnfreeze?
    ensures Uninvolved(db, ApplyOp(db, op))
  {
    hide Uninvolved, OpenTicket, Reopen, Unfreeze, ResolveTicket;
    NothingRewritten(db, db);
    match op
    case OpReopen(at) =>
      var r := Reopen(db.gate, at);
      if r.Ok? { GateUninvolved(db, r.value); }
    case OpOpenTicket(reason, source, severity, at) =>
      var r := OpenTicket(db.gate, reason, source, severity, at, false);
      if r.Ok? { GateUninvolved(db, r.value); }
    case OpResolveTicket(reason, source) => GateUninvolved(db, ResolveTicket(db.gate, reason, source));
    case OpUnfreeze => GateUninvolved(db, Unfreeze(db.gate));
  }

  lemma OthersUninvolved(db: Tables, op: StoreOp)
    requires !op.OpArm? && !op.OpClaim? && !op.OpRecordQuote? && !op.OpRecordAuthority?
    ensures Uninvolved(db, ApplyOp(db, op))
  {
    hide Uninvolved, Stage, Approve, MarkSubmissionUnknown, MarkDelivered, RequestCancel;
    hide ClaimNextCancel, MarkCancelUnknown, MarkCancelDelivered, RecoverClaimed, ResolveUnknown;
    hide RequeueUnknown, Ingest;
    hide AcquireLease, SetBaseline, Reopen, OpenTicket, ResolveTicket, Unfreeze;
    match op
    case OpStage(capsule, reservation, intent) => StageUninvolved(db, capsule, reservation, intent);
    case OpApprove(id, actor, at) => ApproveUninvolved(db, id, actor, at);
    case OpMarkUnknown(id, reason) => MarkUnknownUninvolved(db, id, reason);
    case OpRequestCancel(id, actor) => CancelUninvolved(db, id, actor);
    case OpMarkCancelUnknown(key, reason) => MarkCancelUninvolved(db, key, reason);
    case OpRecover => RecoverUninvolved(db);
    case OpResolve(key, brokerOrderId) => ResolveUninvolved(db, key, brokerOrderId);
    case OpRequeue(key, asOf) => RequeueUninvolved(db, key, asOf);
    case OpIngest(event) => IngestUninvolved(db, event);
    case OpClaimCancel(lease, at) => ClaimCancelUninvolved(db, lease, at);
    case OpReopen(_) => GateOpsUninvolved(db, op);
    case OpOpenTicket(_, _, _, _) => GateOpsUninvolved(db, op);
    case OpResolveTicket(_, _) => GateOpsUninvolved(db, op);
    case OpUnfreeze => GateOpsUninvolved(db, op);
    case _ => MarksUninvolved(db, op);
  }

  /* ---------- Runs ---------- */

  /** A completeness certificate names one snapshot. */
  predicate CertificatesName(authorities: map<Digest, AuthorityRow>, authorityOf: Digest -> AuthorityRow) {
    forall c :: c in authorities ==> authorities[c] == authorityOf(c)
  }

  predicate Certified(op: StoreOp, authorityOf: Digest -> AuthorityRow) {
    op.OpRecordAuthority? ==> op.row == authorityOf(op.certificate)
  }

  lemma AuthorityStepKeeps(db: Tables, op: StoreOp, authorityOf: Digest -> AuthorityRow)
    requires ArmsInv(db) && CertificatesName(db.authorities, authorityOf) && Certified(op, authorityOf) && op.OpRecordAuthority?
    ensures ArmsInv(ApplyOp(db, op)) && CertificatesName(ApplyOp(db, op).authorities, authorityOf)
  {
    hide ArmsInv;
    var after := db.(authorities := db.authorities[op.certificate := op.row]);
    AuthorityKept(db, op.certificate, op.row);
    SameArmsKeep(db, after);
  }

  lemma AuthorityKept(db: Tables, certificate: Digest, row: AuthorityRow)
    requires certificate in db.authorities ==> db.authorities[certificate] == row
    ensures EvidenceKept(db, db.(authorities := db.authorities[certificate := row]))
  {
  }

  lemma QuoteStepKeeps(db: Tables, quote: QuoteSnapshot)
    requires ArmsInv(db)
    ensures ArmsInv(RecordQuote(db, quote)) && RecordQuote(db, quote).authorities == db.authorities
  {
    hide ArmsInv;
    QuoteKept(db, quote);
    SameArmsKeep(db, RecordQuote(db, quote)) by { hide EvidenceKept; }
  }

  lemma QuoteKept(db: Tables, quote: QuoteSnapshot)
    ensures EvidenceKept(db, RecordQuote(db, quote))
  {
  }

  lemma ArmKeepsAuthorities(db: Tables, id: IntentId, request: ArmRequest, at: Time)
    ensures ArmApprovedIntent(db, id, request, at).db.authorities == db.authorities
  {
    hide OpenTicket, ArmExpiry, Enqueue, Eligible, EvaluateQuoteAdmission, InstallArm;
    InstallKeepsAuthorities(db, id.key);
    TicketKeepsAuthorities(db, BrokerAuthorityStale, at);
    TicketKeepsAuthorities(db, MarketQuoteStale, at);
    hide FreezeAndRefuse;
  }

  lemma InstallKeepsAuthorities(db: Tables, k: ClientOrderKey)
    ensures forall binding, at :: InstallArm(db, k, binding, at).db.authorities == db.authorities
  {
    hide ActiveArm, MaxVersion;
  }

  lemma TicketKeepsAuthorities(db: Tables, reason: FreezeReason, at: Time)
    ensures forall error: Error :: FreezeAndRefuse<nat>(db, reason, ApprovalArmSource, at, error).db.authorities == db.authorities
  {
    hide OpenTicket;
    var r := OpenTicket(db.gate, reason, ApprovalArmSource, Blocking, at, true);
    assert r.Err? || db.(gate := r.value).authorities == db.authorities;
    forall error: Error
      ensures FreezeAndRefuse<nat>(db, reason, ApprovalArmSource, at, error).db.authorities == db.authorities
    {
    }
  }

  lemma ClaimKeepsAuthorities(db: Tables, lease: ExecutionLease, latest: Option<Digest>, at: Time)
    ensures ClaimNext(db, lease, latest, at).db.authorities == db.authorities
  {
    hide FirstClaimable, JudgeArm, LeaseCurrent, TakeCommand, ExpireCommand, EvidenceKept;
    var found := FirstClaimable(db, db.outboxOrder);
    if found.Some? {
      TakingKeepsEvidence(db, found.value, JudgeArm(db, found.value, latest, at), lease.fencingToken, at);
      ExpiringKeepsEvidence(db, found.value, at);
    }
  }

  lemma StepKeepsArms(db: Tables, op: StoreOp, authorityOf: Digest -> AuthorityRow)
    requires ArmsInv(db) && CertificatesName(db.authorities, authorityOf) && Certified(op, authorityOf)
    ensures ArmsInv(ApplyOp(db, op)) && CertificatesName(ApplyOp(db, op).authorities, authorityOf)
  {
    hide ArmsInv, ArmApprovedIntent, ClaimNext, RecordQuote, EvidenceKept, CertificatesName;
    match op
    case OpArm(id, request, at) =>
      ArmStepKeeps(db, id, request, at);
      ArmKeepsAuthorities(db, id, request, at);
    case OpClaim(lease, latest, at) =>
      ClaimStepKeeps(db, lease, latest, at);
      ClaimKeepsAuthorities(db, lease, latest, at);
    case OpRecordQuote(quote) => QuoteStepKeeps(db, quote);
    case OpRecordAuthority(_, _, _) => AuthorityStepKeeps(db, op, authorityOf);
    case _ =>
      OthersUninvolved(db, op);
      hide ApplyOp;
      SameArmsKeep(db, ApplyOp(db, op));
  }

  /** Over every run in which a certificate names one snapshot: each intent's arms are versioned 1, 2, 3, ...,
      at most one of them is ACTIVE, and each was issued on stored evidence that outlives it. */
  lemma {:induction false} ArmsStaySound(ops: seq<StoreOp>, authorityOf: Digest -> AuthorityRow)
    requires forall op :: op in ops ==> Certified(op, authorityOf)
    ensures ArmsInv(RunOps(NEW_TABLES, ops)) && CertificatesName(RunOps(NEW_TABLES, ops).authorities, authorityOf)
  {
    if ops != [] {
      hide ArmsInv, ApplyOp, CertificatesName;
      ArmsStaySound(ops[..|ops| - 1], authorityOf);
      StepKeepsArms(RunOps(NEW_TABLES, ops[..|ops| - 1]), ops[|ops| - 1], authorityOf);
    }
  }

  /** Arm soundness over runs. */
  lemma UnexpiredArmAdmitsAfterAnyRun(ops: seq<StoreOp>, authorityOf: Digest -> AuthorityRow, k: ClientOrderKey, latest: Option<Digest>, at: Time)
    requires forall op :: op in ops ==> Certified(op, authorityOf)
    requires var db := RunOps(NEW_TABLES, ops);
             && k in db.approvals && ActiveArm(ArmsOf(db, k)).Some?
             && var binding := ArmsOf(db, k)[ActiveArm(ArmsOf(db, k)).value].binding;
             binding.armedAt <= at < binding.expiresAt && latest == Some(binding.request.authorityId)
    ensures var db := RunOps(NEW_TABLES, ops);
            && k in db.intents && db.intents[k].intent.id.reservationId in db.reservations
            && JudgeArm(db, k, latest, at) == ArmAdmits(ActiveArm(ArmsOf(db, k)).value)
            && at < db.reservations[db.intents[k].intent.id.reservationId].reservation.expiresAt
  {
    hide RunOps, ArmsInv, JudgeArm, CertificatesName;
    ArmsStaySound(ops, authorityOf);
    UnexpiredArmAdmits(RunOps(NEW_TABLES, ops), k, latest, at);
  }
}
