/** When a submit command is handed out, when an approval is armed, and what every refusal writes, for every store, stated
    on the tables. */
module ClaimLaws {
  import opened Admission
  import opened ControlModels
  import opened ControlTables
  import opened FreezeGate

  /* ---------- What a claim needs ---------- */

  /** The stored lease of that name has this owner and token, and runs. */
  predicate LeaseRuns(db: Tables, lease: ExecutionLease, at: Time) {
    && lease.name in db.leases
    && var stored := db.leases[lease.name];
    stored.owner == lease.owner && stored.fencingToken == lease.fencingToken && at < stored.expiresAt
  }

  /** A pending command whose intent and reservation rows exist. */
  predicate Ready(db: Tables, k: ClientOrderKey) {
    && k in db.outbox && db.outbox[k].status == OutboxStatus.Pending
    && k in db.intents && db.intents[k].intent.id == db.outbox[k].intent.id
    && db.intents[k].intent.id.reservationId in db.reservations
  }

  /** The oldest command that is ready. */
  ghost predicate Oldest(db: Tables, k: ClientOrderKey) {
    exists i :: 0 <= i < |db.outboxOrder| && db.outboxOrder[i] == k && Ready(db, k) && forall j :: 0 <= j < i ==> !Ready(db, db.outboxOrder[j])
  }

  function Rows(db: Tables, k: ClientOrderKey): seq<Arm> { if k in db.arms then db.arms[k] else [] }

  /** The newest ACTIVE arm. */
  predicate NewestActive(arms: seq<Arm>, i: nat) {
    i < |arms| && arms[i].status == ArmActive && forall j :: i < j < |arms| ==> arms[j].status != ArmActive
  }

  /** The quote is judged for the intent: its instrument, price and side, in the currency of the authority. */
  predicate Matches(quote: QuoteSnapshot, at: Time, request: ArmRequest, intent: ExecutionIntent, currency: Currency) {
    var k := intent.Key();
    var binding := QuoteBinding(Some(k.instrument), Some(currency), Some(k.limitPrice), Some(k.side), Some(request.maxDriftBps));
    && (forall reason :: !Against(reason, quote, at, request.policy, binding))
    && at < quote.observedAt + request.policy.maxAge && at < quote.providerTimestamp + request.policy.maxAge
  }

  /** The arm names the authority that the newest-authority query returned, and it is stored, and so is the quote. */
  predicate UnderAuthority(db: Tables, request: ArmRequest, latest: Option<Digest>) {
    latest == Some(request.authorityId) && request.authorityId in db.authorities && request.quoteId in db.quotes
  }

  /** Unexpired, under the newest authority, on a quote that is still eligible. */
  predicate Holds(db: Tables, k: ClientOrderKey, arm: Arm, latest: Option<Digest>, at: Time)
    requires k in db.intents
  {
    var request := arm.binding.request;
    && at < arm.binding.expiresAt && UnderAuthority(db, request, latest)
    && Matches(db.quotes[request.quoteId], at, request, db.intents[k].intent, db.authorities[request.authorityId].baseCurrency)
  }

  /* ---------- The parts of a claim ---------- */

  lemma MatchesExactly(quote: QuoteSnapshot, at: Time, request: ArmRequest, intent: ExecutionIntent, currency: Currency)
    ensures Eligible(quote, at, request.policy, QuoteBindingFor(intent, currency, request.maxDriftBps)) <==> Matches(quote, at, request, intent, currency)
  {
    AdmissionExactly(quote, at, request.policy, QuoteBindingFor(intent, currency, request.maxDriftBps));
    hide Against, AgeReasons, StaticReasons;
  }

  lemma ReadyExactly(db: Tables, k: ClientOrderKey)
    ensures Claimable(db, k) <==> Ready(db, k)
  {
  }

  lemma {:induction false} FirstExactly(db: Tables, order: seq<ClientOrderKey>, i: nat)
    requires i < |order| && Ready(db, order[i]) && forall j :: 0 <= j < i ==> !Ready(db, order[j])
    ensures FirstClaimable(db, order) == Some(order[i])
    decreases i
  {
    hide Claimable, Ready;
    ReadyExactly(db, order[0]);
    if i > 0 {
      assert order[1..][i - 1] == order[i];
      FirstExactly(db, order[1..], i - 1);
    }
  }

  lemma {:induction false} FirstIsOldest(db: Tables, order: seq<ClientOrderKey>) returns (i: nat)
    requires FirstClaimable(db, order).Some?
    ensures i < |order| && order[i] == FirstClaimable(db, order).value && Ready(db, order[i]) && forall j :: 0 <= j < i ==> !Ready(db, order[j])
  {
    hide Claimable, Ready;
    ReadyExactly(db, order[0]);
    if Claimable(db, order[0]) {
      i := 0;
    } else {
      var n := FirstIsOldest(db, order[1..]);
      i := n + 1;
      forall j | 0 <= j < i
        ensures !Ready(db, order[j])
      {
        if j > 0 { assert order[1..][j - 1] == order[j]; }
      }
    }
  }

  lemma OldestExactly(db: Tables, k: ClientOrderKey)
    ensures FirstClaimable(db, db.outboxOrder) == Some(k) <==> Oldest(db, k)
  {
    hide FirstClaimable, Ready;
    if Oldest(db, k) {
      var i :| 0 <= i < |db.outboxOrder| && db.outboxOrder[i] == k && Ready(db, k) && forall j :: 0 <= j < i ==> !Ready(db, db.outboxOrder[j]);
      FirstExactly(db, db.outboxOrder, i);
    }
    if FirstClaimable(db, db.outboxOrder) == Some(k) { var i := FirstIsOldest(db, db.outboxOrder); }
  }

  lemma NewestExactly(arms: seq<Arm>, i: nat)
    ensures ActiveArm(arms) == Some(i) <==> NewestActive(arms, i)
    ensures ActiveArm(arms).None? <==> forall j: nat :: !NewestActive(arms, j)
  {
    hide ActiveArm;
    if ActiveArm(arms).Some? { assert NewestActive(arms, ActiveArm(arms).value); }
  }

  /** The verdict on an approved command: no ACTIVE arm, an arm that is refused with its reason, or one that holds. */
  lemma VerdictOfArm(db: Tables, k: ClientOrderKey, latest: Option<Digest>, at: Time, i: nat)
    requires k in db.intents && k in db.approvals
    ensures var v := JudgeArm(db, k, latest, at);
            && (v.ArmAbsent? <==> forall j: nat :: !NewestActive(Rows(db, k), j))
            && !v.ArmNotNeeded?
            && (NewestActive(Rows(db, k), i) ==>
                  v == var arm := Rows(db, k)[i];
                       if Holds(db, k, arm, latest, at) then ArmAdmits(i)
                       else
                         ArmRefuses(i, if arm.binding.expiresAt <= at then ArmMissing
                                       else if !UnderAuthority(db, arm.binding.request, latest) then AuthorityChanged else QuoteRejected))
  {
    hide ActiveArm, Eligible, Matches;
    NewestExactly(Rows(db, k), i);
    if NewestActive(Rows(db, k), i) {
      var request := Rows(db, k)[i].binding.request;
      if UnderAuthority(db, request, latest) {
        MatchesExactly(db.quotes[request.quoteId], at, request, db.intents[k].intent, db.authorities[request.authorityId].baseCurrency);
      }
    }
  }

  /* ---------- Claiming ---------- */

  /** No approval, or a newest ACTIVE arm that holds. */
  ghost predicate Permitted(db: Tables, k: ClientOrderKey, latest: Option<Digest>, at: Time)
    requires k in db.intents
  {
    k in db.approvals ==> exists i :: 0 <= i < |Rows(db, k)| && NewestActive(Rows(db, k), i) && Holds(db, k, Rows(db, k)[i], latest, at)
  }

  lemma PermittedExactly(db: Tables, k: ClientOrderKey, latest: Option<Digest>, at: Time)
    requires k in db.intents
    ensures Permitted(db, k, latest, at) <==> JudgeArm(db, k, latest, at).ArmNotNeeded? || JudgeArm(db, k, latest, at).ArmAdmits?
  {
    hide JudgeArm, Holds, UnderAuthority;
    if k in db.approvals {
      VerdictOfArm(db, k, latest, at, 0);
      forall i: nat
        ensures NewestActive(Rows(db, k), i) ==> (JudgeArm(db, k, latest, at).ArmAdmits? <==> Holds(db, k, Rows(db, k)[i], latest, at))
      {
        VerdictOfArm(db, k, latest, at, i);
      }
    } else {
      NotNeeded(db, k, latest, at);
    }
  }

  lemma NotNeeded(db: Tables, k: ClientOrderKey, latest: Option<Digest>, at: Time)
    requires k in db.intents
    ensures JudgeArm(db, k, latest, at).ArmNotNeeded? <==> k !in db.approvals
  {
    hide Eligible, ActiveArm;
  }

  function ReservationOf(db: Tables, k: ClientOrderKey): RiskReservation
    requires Ready(db, k)
  {
    db.reservations[db.intents[k].intent.id.reservationId].reservation
  }

  /** The claim, exactly. A worker is given a command if and only if the store is not frozen, its lease runs, the command
      is the oldest that is ready, its reservation runs, and either nobody approved it or its newest ACTIVE arm is
      unexpired, under the newest authority, and on a quote that is still eligible. */
  lemma ClaimExactly(db: Tables, lease: ExecutionLease, latest: Option<Digest>, at: Time, intent: ExecutionIntent)
    ensures ClaimNext(db, lease, latest, at).result == Ok(Some(intent)) <==>
            && !db.gate.frozen && LeaseRuns(db, lease, at)
            && exists k ::
                 && Oldest(db, k) && Ready(db, k) && at < ReservationOf(db, k).expiresAt && Permitted(db, k, latest, at)
                 && db.intents[k].intent == intent
  {
    hide FirstClaimable, JudgeArm, Oldest, Permitted, TakeCommand, ExpireCommand;
    LeaseExactly(db, lease, at);
    forall k
      ensures FirstClaimable(db, db.outboxOrder) == Some(k) <==> Oldest(db, k)
    {
      OldestExactly(db, k);
    }
    var found := FirstClaimable(db, db.outboxOrder);
    if found.Some? {
      ReadyExactly(db, found.value);
      PermittedExactly(db, found.value, latest, at);
    }
  }

  lemma LeaseExactly(db: Tables, lease: ExecutionLease, at: Time)
    ensures LeaseCurrent(db, lease, at) <==> LeaseRuns(db, lease, at)
  {
  }

  /** What a claim that is not refused before its command is found does with it. */
  lemma ClaimWritesExactly(db: Tables, lease: ExecutionLease, latest: Option<Digest>, at: Time, k: ClientOrderKey, i: nat)
    requires !db.gate.frozen && LeaseRuns(db, lease, at) && Oldest(db, k) && Ready(db, k)
    requires k in db.approvals ==> NewestActive(Rows(db, k), i)
    ensures var r := ClaimNext(db, lease, latest, at);
            var row, command := db.intents[k], db.outbox[k];
            var rid := row.intent.id.reservationId;
            if k in db.approvals && !Holds(db, k, Rows(db, k)[i], latest, at) then
              && r.db == db.(arms := db.arms[k := Rows(db, k)[i := Rows(db, k)[i].(status := ArmExpiredStatus)]])
              && r.result == Err(if Rows(db, k)[i].binding.expiresAt <= at then ArmMissing
                                 else if !UnderAuthority(db, Rows(db, k)[i].binding.request, latest) then AuthorityChanged else QuoteRejected)
            else if ReservationOf(db, k).expiresAt <= at then
              && r.db == db.(outbox := db.outbox[k := command.(status := OutboxStatus.Delivered)],
                             intents := db.intents[k := row.(status := ExecutionStatus.Expired, version := row.version + 1)],
                             reservations := db.reservations[rid := db.reservations[rid].(status := ReservationExpiredStatus)],
                             notes := db.notes + {OrderNote(row.intent.id, ReservationExpiredNote(at))})
              && r.result == Ok(None)
            else
              && r.db == db.(outbox := db.outbox[k := command.(status := OutboxStatus.Claimed, fencingToken := Some(lease.fencingToken),
                                                                claimedAt := Some(at))],
                             intents := db.intents[k := row.(status := Submitting, version := row.version + 1)],
                             arms := if k in db.approvals
                                     then db.arms[k := Rows(db, k)[i := Rows(db, k)[i].(status := ArmConsumed(at))]] else db.arms)
              && r.result == Ok(Some(row.intent))
  {
    hide FirstClaimable, JudgeArm, Oldest, Holds, UnderAuthority;
    LeaseExactly(db, lease, at);
    OldestExactly(db, k);
    ReadyExactly(db, k);
    NotNeeded(db, k, latest, at);
    if k in db.approvals { VerdictOfArm(db, k, latest, at, i); }
  }

  /** Approved, and without an ACTIVE arm. */
  ghost predicate Unarmed(db: Tables, k: ClientOrderKey) { k in db.approvals && forall i: nat :: !NewestActive(Rows(db, k), i) }

  /** The refusals that write nothing, in their order: a frozen store, a lease that does not run, nothing ready, and an
      approved command without an ACTIVE arm. */
  lemma ClaimRefusedExactly(db: Tables, lease: ExecutionLease, latest: Option<Digest>, at: Time)
    ensures var r := ClaimNext(db, lease, latest, at);
            && (db.gate.frozen ==> r == Outcome(db, Err(Frozen)))
            && (!db.gate.frozen && !LeaseRuns(db, lease, at) ==> r == Outcome(db, Err(StaleFencingToken)))
            && (!db.gate.frozen && LeaseRuns(db, lease, at) && (forall k :: !Oldest(db, k)) ==> r == Outcome(db, Ok(None)))
            && (!db.gate.frozen && LeaseRuns(db, lease, at) && (exists k :: Oldest(db, k) && Unarmed(db, k)) ==> r == Outcome(db, Err(ArmMissing)))
  {
    hide FirstClaimable, JudgeArm, Oldest, TakeCommand, ExpireCommand, NewestActive;
    LeaseExactly(db, lease, at);
    forall k
      ensures FirstClaimable(db, db.outboxOrder) == Some(k) <==> Oldest(db, k)
    {
      OldestExactly(db, k);
    }
    var found := FirstClaimable(db, db.outboxOrder);
    if found.Some? {
      assert Oldest(db, found.value);
      ReadyExactly(db, found.value);
      if found.value in db.approvals { VerdictOfArm(db, found.value, latest, at, 0); }
    }
  }
}
