/** Authoritative reconciliation: a snapshot is compared only when independent observations agree on it, and
    only a converged snapshot with complete components becomes an authority that approvals may rest on. */
module AuthoritativeReconciliation {
  import opened Arms
  import opened Consensus
  import opened ControlModels
  import opened ControlTables
  import opened Convergence
  import opened ExecutionStore
  import opened FreezeGate
  import opened FreezeTheorems
  import opened ReconcileSteps
  import opened ReconciliationModel
  import opened Reconcilers
  import opened StoreFrames
  import opened StoreRuns

  /* ---------- The procedure ---------- */

  /** Which parts of the account a snapshot was able to observe. */
  datatype Components = Components(orders: bool, positions: bool, executions: bool, cash: bool, pendingCommissions: nat)

  /** What names a snapshot and the observation it comes from. */
  datatype Identity = Identity(
    observationId: Option<Digest>,
    certificate: Option<Digest>,
    session: Option<Name>,
    scope: Option<Digest>,
    semanticHash: Option<Digest>,
    watermark: nat,
    policy: Digest,
    valuations: map<Name, real>,
    components: Components)

  function ObservationOf(s: BrokerSnapshot, id: Identity): Observation {
    Observation(s.complete, id.observationId, id.certificate, id.session, id.scope, id.semanticHash, id.watermark, s.asOf, id.policy, id.valuations)
  }

  predicate ComponentsComplete(s: BrokerSnapshot, c: Components) {
    s.complete && c.orders && c.positions && c.executions && c.cash && c.pendingCommissions == 0
  }

  /** The row that a snapshot would become. */
  function AuthorityOf(s: BrokerSnapshot, id: Identity): AuthorityRow
    requires id.semanticHash.Some?
  {
    AuthorityRow(id.semanticHash.value, s.asOf, ComponentsComplete(s, id.components), s.baseCurrency)
  }

  /** The store and the register of votes. */
  datatype Control = Control(db: Tables, register: Register)

  const NEW_CONTROL := Control(NEW_TABLES, NEW_REGISTER)

  /** Without agreement the store freezes and only the wait is written down. */
  function Awaiting(db: Tables, id: Identity, count: nat, at: Time): Result<(Tables, Report)> {
    match OpenTicket(db.gate, ConsensusPending, ReconcilerSource, Blocking, at, false)
    case Err(e) => Err(e)
    case Ok(gate) =>
      var run, d := ConsensusRun(id.semanticHash, id.scope, count, at), ConsensusPendingFound(id.scope, count);
      Ok((db.(gate := gate,
              runs := if run in db.runs then db.runs else db.runs[run := AwaitingConsensus],
              discrepancies := if d in db.discrepancies then db.discrepancies else db.discrepancies[d := OpenRow]),
          Report(AwaitingConsensus, {d}, true)))
  }

  /** A converged snapshot becomes an authority; one whose components are incomplete freezes the store again. */
  function Promoted(db: Tables, s: BrokerSnapshot, id: Identity, report: Report, at: Time): Result<(Tables, Report)>
    requires id.certificate.Some? && id.semanticHash.Some?
  {
    if report.status == Converged && !ComponentsComplete(s, id.components) then
      match OpenTicket(db.gate, AuthorityComponentsIncomplete, ReconcilerSource, Blocking, at, false)
      case Err(e) => Err(e)
      case Ok(gate) => Ok((db.(gate := gate), report.(status := AuthorityRejected, frozen := true)))
    else Ok((RecordAuthority(db, id.certificate.value, AuthorityOf(s, id), report.status).db, report))
  }

  /** With agreement the snapshot is compared, and promoted if that converges. */
  ghost function Agreed(db: Tables, s: BrokerSnapshot, id: Identity, at: Time): Result<(Tables, Report)>
    requires id.certificate.Some? && id.semanticHash.Some?
  {
    match Reconcile(db, s, at)
    case Err(e) => Err(e)
    case Ok(done) => Promoted(done.0, s, id, done.1, at)
  }

  /** One call. `previous` is what the newest-accepted-vote query returned; Err means that something raised. */
  ghost function Authoritative(c: Control, s: BrokerSnapshot, id: Identity, previous: Option<Vote>, at: Time, interval: nat)
    : (Register, Result<(Tables, Report)>)
  {
    if !s.complete then
      var rejected := Incomplete(c.db, s, at);
      (c.register, match rejected.result case Err(e) => Err(e) case Ok(report) => Ok((rejected.db, report)))
    else
      var (register, verdict) := Registered(c.register, ObservationOf(s, id), previous, at, interval);
      (register,
       if !verdict.agreed then Awaiting(c.db, id, verdict.count, at)
       else Agreed(c.db, s, id, at))
  }

  /** What a call makes of the votes: an incomplete snapshot, one without an identity and one that was offered before add
      none; any other adds its own, with the identity's session, certificate, state and valuations and the snapshot's time. */
  lemma VoteExactly(c: Control, s: BrokerSnapshot, id: Identity, previous: Option<Vote>, at: Time, interval: nat)
    ensures var votes := Authoritative(c, s, id, previous, at, interval).0.votes;
            var named := s.complete && id.semanticHash.Some? && id.scope.Some? && id.certificate.Some? && id.observationId.Some?
                         && id.session.Some? && id.watermark > 0;
            && (!named || id.observationId.value in c.register.votes ==> votes == c.register.votes)
            && (named && id.observationId.value !in c.register.votes ==>
                  exists disposition ::
                    votes == c.register.votes[id.observationId.value :=
                      Vote(id.observationId.value, id.certificate.value, id.session.value, id.scope.value, id.semanticHash.value,
                           id.watermark, s.asOf, at, id.policy, id.valuations, disposition)])
  {
    hide Equivalent, Independent, Agreed, Awaiting, Incomplete;
  }

  /* ---------- What agreement means ---------- */

  /** With a count of at least two, the scope's row names the state that the newest accepted votes agree on. */
  ghost predicate CountMeansAgreement(r: Register) {
    forall scope, v :: scope in r.rows && r.rows[scope].count >= 2 && IsLatest(r.votes, scope, Some(v))
      ==> v.semanticHash == r.rows[scope].semanticHash
  }

  /** At least two accepted votes, each independently confirming the one before, end in a newest one for this state. */
  ghost predicate NewestConfirms(r: Register, scope: Digest, state: Digest, interval: nat) {
    exists v, length: nat :: IsLatest(r.votes, scope, Some(v)) && v.semanticHash == state && length >= 2 && ChainEnds(r.votes, scope, v, length, interval)
  }

  lemma AgreementKept(r: Register, o: Observation, previous: Option<Vote>, at: Time, interval: nat)
    requires RegisterInv(r, interval) && CountMeansAgreement(r)
    requires o.scope.Some? ==> IsLatest(r.votes, o.scope.value, previous)
    ensures CountMeansAgreement(Registered(r, o, previous, at, interval).0)
  {
    if WellFormed(o) && o.observationId.value !in r.votes {
      var after := Registered(r, o, previous, at, interval).0;
      forall scope, v | scope in after.rows && after.rows[scope].count >= 2 && IsLatest(after.votes, scope, Some(v))
        ensures v.semanticHash == after.rows[scope].semanticHash
      {
        AgreementAt(r, o, previous, at, interval, scope, v);
      }
    }
  }

  lemma AgreementAt(r: Register, o: Observation, previous: Option<Vote>, at: Time, interval: nat, scope: Digest, v: Vote)
    requires RegisterInv(r, interval) && CountMeansAgreement(r) && WellFormed(o) && o.observationId.value !in r.votes
    requires IsLatest(r.votes, o.scope.value, previous)
    requires var after := Registered(r, o, previous, at, interval).0;
             scope in after.rows && after.rows[scope].count >= 2 && IsLatest(after.votes, scope, Some(v))
    ensures v.semanticHash == Registered(r, o, previous, at, interval).0.rows[scope].semanticHash
  {
    hide RegisterInv, IsLatest, WithinBudget, Independent;
    var disposition := DispositionOf(previous, o, interval);
    var w := Cast(o, at, disposition);
    LatestScope(r.votes[w.observationId := w], scope, v);
    if v != w { LatestAfter(r.votes, w, scope, v); }
    if scope == o.scope.value && disposition == RejectedNonIndependent {
      NotAccepted(r.votes, w, scope, v);
      LatestIsCounted(r, scope, previous.value, interval);
    }
    if scope == o.scope.value && disposition == AcceptedIndependent {
      IndependentIsNewer(previous.value, o, interval);
      ConfirmingVoteIsNewest(r.votes, w, scope, previous.value, v);
    }
  }

  lemma LatestScope(votes: map<Digest, Vote>, scope: Digest, v: Vote)
    requires IsLatest(votes, scope, Some(v))
    ensures v.scope == scope
  {
  }

  lemma NotAccepted(votes: map<Digest, Vote>, w: Vote, scope: Digest, v: Vote)
    requires w.disposition == RejectedNonIndependent && w.observationId !in votes && IsLatest(votes[w.observationId := w], scope, Some(v))
    ensures v != w
  {
  }

  lemma IndependentIsNewer(p: Vote, o: Observation, interval: nat)
    requires Independent(p, o, interval)
    ensures p.asOf < o.asOf
  {
  }

  /** With agreement the newest accepted vote ends a chain of that many votes for the state of the row. */
  lemma LatestIsCounted(r: Register, scope: Digest, v: Vote, interval: nat)
    requires RegisterInv(r, interval) && CountMeansAgreement(r) && IsLatest(r.votes, scope, Some(v))
    ensures scope in r.rows && ChainEnds(r.votes, scope, v, r.rows[scope].count, interval)
    ensures r.rows[scope].count >= 2 ==> v.semanticHash == r.rows[scope].semanticHash
  {
    assert v.observationId in r.votes && r.votes[v.observationId].scope == scope;
  }

  lemma RowMeansVote(r: Register, scope: Digest, interval: nat)
    requires RegisterInv(r, interval) && scope in r.rows
    ensures !IsLatest(r.votes, scope, None)
  {
  }

  /** A newest vote after an agreed vote: the vote itself, or the one it repeats. */
  lemma AgreedHasNewest(r: Register, o: Observation, previous: Option<Vote>, at: Time, interval: nat) returns (v: Vote)
    requires RegisterInv(r, interval) && CountMeansAgreement(r)
    requires o.scope.Some? ==> IsLatest(r.votes, o.scope.value, previous)
    requires Registered(r, o, previous, at, interval).1.agreed
    ensures o.scope.Some? && IsLatest(Registered(r, o, previous, at, interval).0.votes, o.scope.value, Some(v))
  {
    var scope, id := o.scope.value, o.observationId.value;
    if id in r.votes {
      RowMeansVote(r, scope, interval);
      v := previous.value;
    } else {
      var disposition := DispositionOf(previous, o, interval);
      var w := Cast(o, at, disposition);
      var after := r.votes[id := w];
      v := if disposition == AcceptedIndependent then w else previous.value;
      forall i | i in after && AcceptedIn(after[i], scope)
        ensures NotNewer(after[i], v)
      {
        if i != id { assert NotNewer(r.votes[i], previous.value); }
      }
    }
  }

  /** What an `agreed` verdict is worth. The newest votes confirm the state that was offered exactly when the
      observation had not been offered before, or its state is the one in the scope's row. */
  lemma AgreedIsConfirmedExactly(r: Register, o: Observation, previous: Option<Vote>, at: Time, interval: nat)
    requires RegisterInv(r, interval) && CountMeansAgreement(r)
    requires o.scope.Some? ==> IsLatest(r.votes, o.scope.value, previous)
    requires Registered(r, o, previous, at, interval).1.agreed
    ensures o.scope.Some? && o.semanticHash.Some? && o.observationId.Some?
    ensures NewestConfirms(Registered(r, o, previous, at, interval).0, o.scope.value, o.semanticHash.value, interval)
            <==> o.observationId.value !in r.votes || (o.scope.value in r.rows && r.rows[o.scope.value].semanticHash == o.semanticHash.value)
  {
    var after := Registered(r, o, previous, at, interval).0;
    var v := AgreedHasNewest(r, o, previous, at, interval);
    RegisterKeepsInv(r, o, previous, at, interval);
    AgreementKept(r, o, previous, at, interval);
    var scope := o.scope.value;
    LatestIsCounted(after, scope, v, interval);
    var state := after.rows[scope].semanticHash;
    hide RegisterInv, IsLatest, Equivalent, Independent, ChainEnds;
    assert NewestConfirms(after, scope, state, interval);
    if NewestConfirms(after, scope, o.semanticHash.value, interval) {
      var u, length: nat :| IsLatest(after.votes, scope, Some(u)) && u.semanticHash == o.semanticHash.value && length >= 2
                            && ChainEnds(after.votes, scope, u, length, interval);
      LatestIsCounted(after, scope, u, interval);
    }
  }

  /** Without that condition the claim is false. Two sessions agree on state 2 after a first one saw state 1;
      offering the first observation again is answered as agreed, although nobody ever confirmed state 1. */
  lemma ReplayedObservationIsAgreed() returns (ballots: seq<Ballot>, o: Observation, newest: Vote)
    ensures var r := RunBallots(ballots, 1);
            && IsLatest(r.votes, 0, Some(newest)) && o.scope == Some(0) && o.semanticHash == Some(1)
            && Registered(r, o, Some(newest), 4, 1).1 == Verdict(true, 2)
            && forall scope, chain: seq<Vote> :: IsChain(r.votes, scope, chain, 1) && |chain| >= 2 ==> chain[|chain| - 1].semanticHash != 1
  {
    var first, second, third := Sample(1, 1), Sample(2, 2), Sample(3, 2);
    var v1, v2, v3 := Cast(first, 1, AcceptedFirst), Cast(second, 2, AcceptedDivergentReset), Cast(third, 3, AcceptedIndependent);
    var b1, b2, b3 := Ballot(first, None, 1), Ballot(second, Some(v1), 2), Ballot(third, Some(v2), 3);
    ballots, o, newest := [b1, b2, b3], first, v3;
    assert RunBallots([], 1) == NEW_REGISTER;
    assert [b1][..0] == [] && [b1, b2][..1] == [b1] && ballots[..2] == [b1, b2];
    var r1 := RunBallots([b1], 1);
    assert r1 == Register(map[1 := v1], map[0 := ScopeRow(1, 1, 1, 1, 1)]);
    var r2 := RunBallots([b1, b2], 1);
    assert r2 == Register(map[1 := v1, 2 := v2], map[0 := ScopeRow(2, 1, 2, 2, 2)]);
    var r3 := RunBallots(ballots, 1);
    assert r3 == Register(map[1 := v1, 2 := v2, 3 := v3], map[0 := ScopeRow(2, 2, 2, 3, 3)]);
    forall scope, chain: seq<Vote> | IsChain(r3.votes, scope, chain, 1) && |chain| >= 2
      ensures chain[|chain| - 1].semanticHash != 1
    {
      var n := |chain| - 1;
      assert Confirms(chain[n - 1], chain[n], 1);
      assert chain[n].observationId in r3.votes && chain[n - 1].observationId in r3.votes;
    }
  }

  function Sample(n: nat, state: Digest): Observation {
    Observation(true, Some(n), Some(n), Some(n), Some(0), Some(state), n, n, 0, map[])
  }

  /* ---------- Runs ---------- */

  datatype ControlStep =
    | Offered(snapshot: BrokerSnapshot, identity: Identity, previous: Option<Vote>, at: Time)
    | Did(op: StoreOp)
    | Began(run: RunId)
    | Recorded(run: RunId, found: set<Discrepancy>)

  /** The query returns a newest vote, and only this procedure records authorities. */
  ghost predicate Possible(c: Control, step: ControlStep) {
    match step
    case Offered(_, id, previous, _) => id.scope.Some? ==> IsLatest(c.register.votes, id.scope.value, previous)
    case Did(op) => !op.OpRecordAuthority?
    case _ => true
  }

  /** An observation that was offered before is about the state that its scope's row names. */
  predicate Unrepeated(c: Control, step: ControlStep) {
    match step
    case Offered(_, id, _, _) =>
      id.observationId.Some? && id.observationId.value in c.register.votes && id.scope.Some? && id.scope.value in c.register.rows
      ==> id.semanticHash == Some(c.register.rows[id.scope.value].semanticHash)
    case _ => true
  }

  /** A call that raises has cast its vote; the transactions that it committed before raising are steps of their own. */
  ghost function NextControl(c: Control, step: ControlStep, interval: nat): Control {
    if !Possible(c, step) then c
    else
      match step
      case Offered(s, id, previous, at) =>
        var (register, r) := Authoritative(c, s, id, previous, at, interval);
        Control(if r.Ok? then r.value.0 else c.db, register)
      case Did(op) => c.(db := ApplyOp(c.db, op))
      case Began(run) => c.(db := RunStarted(c.db, run))
      case Recorded(run, found) => c.(db := RunRecorded(c.db, run, found))
  }

  /** The call reports convergence, which makes its snapshot an authority. */
  ghost predicate Promotes(c: Control, step: ControlStep, interval: nat) {
    && step.Offered? && Possible(c, step)
    && var r := Authoritative(c, step.snapshot, step.identity, step.previous, step.at, interval).1;
    r.Ok? && r.value.1.status == Converged
  }

  /** An observation that a call promotes is not one that was offered before about another state. */
  ghost predicate PromotesUnrepeated(c: Control, step: ControlStep, interval: nat) { Promotes(c, step, interval) ==> Unrepeated(c, step) }

  ghost function RunControl(steps: seq<ControlStep>, interval: nat): Control {
    if steps == [] then NEW_CONTROL
    else NextControl(RunControl(steps[..|steps| - 1], interval), steps[|steps| - 1], interval)
  }

  ghost predicate StateConfirmed(votes: map<Digest, Vote>, state: Digest, interval: nat) {
    exists scope, v, length: nat :: ChainEnds(votes, scope, v, length, interval) && length >= 2 && v.semanticHash == state
  }

  ghost predicate AuthoritiesConfirmed(c: Control, interval: nat) {
    forall d :: d in c.db.authorities ==> c.db.authorities[d].complete && StateConfirmed(c.register.votes, c.db.authorities[d].semanticHash, interval)
  }

  ghost predicate ControlInv(c: Control, interval: nat) {
    RegisterInv(c.register, interval) && CountMeansAgreement(c.register) && AuthoritiesConfirmed(c, interval)
  }

  lemma ConfirmedStays(votes: map<Digest, Vote>, after: map<Digest, Vote>, state: Digest, interval: nat)
    requires StateConfirmed(votes, state, interval)
    requires forall id :: id in votes ==> id in after && after[id] == votes[id]
    ensures StateConfirmed(after, state, interval)
  {
    hide ChainEnds;
    var scope, v, length: nat :| ChainEnds(votes, scope, v, length, interval) && length >= 2 && v.semanticHash == state;
    ChainGrows(votes, after, scope, v, length, interval);
  }

  lemma VotesGrow(r: Register, o: Observation, previous: Option<Vote>, at: Time, interval: nat)
    ensures var after := Registered(r, o, previous, at, interval).0.votes; forall id :: id in r.votes ==> id in after && after[id] == r.votes[id]
  {
    hide Equivalent, Independent;
  }

  lemma RegisteringKeeps(c: Control, o: Observation, previous: Option<Vote>, at: Time, interval: nat)
    requires ControlInv(c, interval)
    requires o.scope.Some? ==> IsLatest(c.register.votes, o.scope.value, previous)
    ensures ControlInv(c.(register := Registered(c.register, o, previous, at, interval).0), interval)
  {
    hide RegisterInv, CountMeansAgreement, StateConfirmed, IsLatest, Registered;
    var after := Registered(c.register, o, previous, at, interval).0;
    RegisterKeepsInv(c.register, o, previous, at, interval);
    AgreementKept(c.register, o, previous, at, interval);
    VotesGrow(c.register, o, previous, at, interval);
    forall d | d in c.db.authorities
      ensures StateConfirmed(after.votes, c.db.authorities[d].semanticHash, interval)
    {
      ConfirmedStays(c.register.votes, after.votes, c.db.authorities[d].semanticHash, interval);
    }
  }

  lemma NewestIsConfirmed(r: Register, scope: Digest, state: Digest, interval: nat)
    requires NewestConfirms(r, scope, state, interval)
    ensures StateConfirmed(r.votes, state, interval)
  {
    hide ChainEnds, IsLatest;
  }

  /* ---------- What the transactions leave alone ---------- */

  predicate SameSetting(db: Tables, after: Tables) {
    && after.gate == db.gate && after.authorities == db.authorities && after.baseline == db.baseline
    && after.discrepancies == db.discrepancies
  }

  lemma KnownSetting(db: Tables, e: BrokerEvent)
    requires e.Key() in db.intents
    ensures SameSetting(db, Ingest(db, e).db)
  {
    hide Ingest, SameFrame;
    KnownFrame(db, e);
    IngestWrites(db, e);
    FrameGate(db, Ingest(db, e).db);
  }

  lemma FrameGate(db: Tables, after: Tables)
    requires SameFrame(db, after)
    ensures after.gate == db.gate
  {
  }

  lemma {:induction false} IngestKnownSetting(db: Tables, events: seq<BrokerEvent>)
    ensures SameSetting(db, IngestKnown(db, events).db)
  {
    hide Ingest;
    if events != [] {
      var rest := events[..|events| - 1];
      IngestKnownSetting(db, rest);
      var before := IngestKnown(db, rest);
      if before.result.Ok? && events[|events| - 1].Key() in before.db.intents { KnownSetting(before.db, events[|events| - 1]); }
    }
  }

  lemma CaughtUpSetting(db: Tables, s: BrokerSnapshot)
    ensures var r := CaughtUp(db, s); r.Ok? ==> SameSetting(db, r.value)
  {
    hide RecoverClaimed, ResolveAll, RequeueAll, IngestKnown, ByKey, AbsentUnknown, TooOld;
    var recovered := RecoverClaimed(db, db.outbox.Keys);
    RecoverWrites(db, db.outbox.Keys);
    IngestKnownSetting(recovered, s.events);
    var ingested := IngestKnown(recovered, s.events).db;
    var orders := ByKey(s.orders);
    ResolveAllWrites(ingested, orders);
    RequeueAllWrites(ResolveAll(ingested, orders), AbsentUnknown(recovered.intents, orders), s.asOf);
  }

  /** A run leaves the authorities as they were. */
  lemma ReconcileKeepsAuthorities(db: Tables, s: BrokerSnapshot, at: Time)
    ensures var r := Reconcile(db, s, at); r.Ok? ==> r.value.0.authorities == db.authorities
  {
    hide CaughtUp, Findings, OpenTicket, RecoverClaimed, Unfreeze, Lifecycles, StatusOf, ByKey;
    var ticket := OpenTicket(db.gate, ReconciliationInProgress, ReconcilerSource, Blocking, at, false);
    if ticket.Ok? { CaughtUpSetting(db.(gate := ticket.value, runs := db.runs[RunId(s.asOf, at) := Running]), s); }
  }

  lemma StepKeepsAuthorities(db: Tables, op: StoreOp)
    requires !op.OpRecordAuthority?
    ensures ApplyOp(db, op).authorities == db.authorities
  {
    hide ArmApprovedIntent, ClaimNext, EvidenceKept;
    match op
    case OpArm(id, request, at) => ArmKeepsAuthorities(db, id, request, at);
    case OpClaim(lease, latest, at) => ClaimKeepsAuthorities(db, lease, latest, at);
    case OpRecordQuote(quote) =>
    case _ =>
      OthersUninvolved(db, op);
      hide ApplyOp;
  }

  /* ---------- The theorems ---------- */

  lemma CompleteExactly(s: BrokerSnapshot, c: Components)
    ensures ComponentsComplete(s, c) <==> s.complete && c == Components(true, true, true, true, 0)
  {
  }

  /** What a promotion does to the authorities, and when it happens. */
  lemma PromotionIs(db: Tables, s: BrokerSnapshot, id: Identity, report: Report, at: Time)
    requires id.certificate.Some? && id.semanticHash.Some?
    ensures var r := Promoted(db, s, id, report, at);
            r.Ok? ==>
              if report.status == Converged && s.complete && id.components == Components(true, true, true, true, 0)
              then r.value.0.authorities ==
                   db.authorities[id.certificate.value := AuthorityRow(id.semanticHash.value, s.asOf, true, s.baseCurrency)]
              else r.value.0.authorities == db.authorities
  {
    hide OpenTicket, ComponentsComplete, RecordAuthority;
    CompleteExactly(s, id.components);
    RecordedAuthorities(db, id.certificate.value, AuthorityOf(s, id), report.status);
    var ticket := OpenTicket(db.gate, AuthorityComponentsIncomplete, ReconcilerSource, Blocking, at, false);
    if report.status == Converged && !ComponentsComplete(s, id.components) && ticket.Ok? {
      assert db.(gate := ticket.value).authorities == db.authorities;
    }
  }

  lemma RecordedAuthorities(db: Tables, certificate: Digest, row: AuthorityRow, status: RunStatus)
    ensures RecordAuthority(db, certificate, row, status).db.authorities ==
            if status == Converged && row.complete then db.authorities[certificate := row] else db.authorities
  {
  }

  /** Exactly the calls that promote write an authority, and it is that of their snapshot. */
  lemma PromotesExactly(c: Control, step: ControlStep, interval: nat)
    requires step.Offered? && Possible(c, step)
    ensures var (s, id) := (step.snapshot, step.identity);
            var after := NextControl(c, step, interval);
            if Promotes(c, step, interval) then
              && s.complete && id.certificate.Some? && id.semanticHash.Some? && id.scope.Some? && id.observationId.Some?
              && Registered(c.register, ObservationOf(s, id), step.previous, step.at, interval).1.agreed
              && after.db.authorities == c.db.authorities[id.certificate.value := AuthorityOf(s, id)]
              && ComponentsComplete(s, id.components) && id.components == Components(true, true, true, true, 0)
            else after.db.authorities == c.db.authorities
  {
    hide Registered, Reconcile, Promoted, OpenTicket, ComponentsComplete, Possible;
    var s, id, at := step.snapshot, step.identity, step.at;
    var o := ObservationOf(s, id);
    var verdict := Registered(c.register, o, step.previous, at, interval).1;
    var run := Reconcile(c.db, s, at);
    if s.complete && verdict.agreed {
      AgreedHasRow(c.register, o, step.previous, at, interval);
      if run.Ok? {
        ReconcileKeepsAuthorities(c.db, s, at);
        PromotionIs(run.value.0, s, id, run.value.1, at);
        PromotedStatus(run.value.0, s, id, run.value.1, at);
        CompleteExactly(s, id.components);
      }
    }
  }

  lemma PromotedStatus(db: Tables, s: BrokerSnapshot, id: Identity, report: Report, at: Time)
    requires id.certificate.Some? && id.semanticHash.Some?
    ensures var r := Promoted(db, s, id, report, at);
            r.Ok? ==> (r.value.1.status == Converged <==> report.status == Converged && ComponentsComplete(s, id.components))
  {
    hide OpenTicket, ComponentsComplete, RecordAuthority;
  }

  lemma IsOffer(c: Control, step: ControlStep, interval: nat)
    requires Promotes(c, step, interval)
    ensures step.Offered? && Possible(c, step)
  {
  }

  /** What a promotion is worth. The newest votes confirm the state of the authority that a call writes exactly when
      its observation had not been offered before, or its state is the one in the scope's row. */
  lemma PromotionConfirmedExactly(c: Control, step: ControlStep, interval: nat)
    requires RegisterInv(c.register, interval) && CountMeansAgreement(c.register) && Promotes(c, step, interval)
    ensures step.identity.scope.Some? && step.identity.semanticHash.Some?
    ensures NewestConfirms(NextControl(c, step, interval).register, step.identity.scope.value, step.identity.semanticHash.value, interval)
            <==> Unrepeated(c, step)
  {
    hide RegisterInv, CountMeansAgreement, IsLatest, Registered, Reconcile, NewestConfirms, Promoted, OpenTicket, Promotes, Awaiting;
    IsOffer(c, step, interval);
    var s, id, previous, at := step.snapshot, step.identity, step.previous, step.at;
    PromotesExactly(c, step, interval);
    var o := ObservationOf(s, id);
    AgreedIsConfirmedExactly(c.register, o, previous, at, interval);
    AgreedHasRow(c.register, o, previous, at, interval);
    assert NextControl(c, step, interval).register == Registered(c.register, o, previous, at, interval).0;
  }

  lemma OfferKeeps(c: Control, step: ControlStep, interval: nat)
    requires ControlInv(c, interval) && step.Offered? && Possible(c, step) && PromotesUnrepeated(c, step, interval)
    ensures ControlInv(NextControl(c, step, interval), interval)
  {
    hide RegisterInv, CountMeansAgreement, StateConfirmed, IsLatest, Registered, Reconcile, NewestConfirms;
    hide Promoted, OpenTicket, Promotes, Awaiting, Agreed, Unrepeated;
    var s, id := step.snapshot, step.identity;
    PromotesExactly(c, step, interval);
    if s.complete {
      RegisteringKeeps(c, ObservationOf(s, id), step.previous, step.at, interval);
      if Promotes(c, step, interval) {
        PromotionConfirmedExactly(c, step, interval);
        NewestIsConfirmed(NextControl(c, step, interval).register, id.scope.value, id.semanticHash.value, interval);
      }
    }
  }

  lemma AgreedHasRow(r: Register, o: Observation, previous: Option<Vote>, at: Time, interval: nat)
    requires Registered(r, o, previous, at, interval).1.agreed
    ensures WellFormed(o) && (o.observationId.value in r.votes ==> o.scope.value in r.rows)
  {
  }

  /** Votes stay sound whatever is offered. */
  lemma {:induction false} RunKeepsRegister(steps: seq<ControlStep>, interval: nat)
    ensures var r := RunControl(steps, interval).register; RegisterInv(r, interval) && CountMeansAgreement(r)
  {
    if steps != [] {
      hide RegisterInv, CountMeansAgreement, IsLatest, Agreed, Awaiting, Registered, ApplyOp;
      var n := |steps| - 1;
      var step := steps[n];
      RunKeepsRegister(steps[..n], interval);
      var c := RunControl(steps[..n], interval);
      if step.Offered? && Possible(c, step) && step.snapshot.complete {
        var o := ObservationOf(step.snapshot, step.identity);
        RegisterKeepsInv(c.register, o, step.previous, step.at, interval);
        AgreementKept(c.register, o, step.previous, step.at, interval);
      }
    }
  }

  lemma {:induction false} RunKeepsControl(steps: seq<ControlStep>, interval: nat)
    requires forall i :: 0 <= i < |steps| ==> PromotesUnrepeated(RunControl(steps[..i], interval), steps[i], interval)
    ensures ControlInv(RunControl(steps, interval), interval)
  {
    if steps != [] {
      hide RegisterInv, CountMeansAgreement, StateConfirmed, Possible, PromotesUnrepeated, Authoritative, ApplyOp;
      var n := |steps| - 1;
      var rest, step := steps[..n], steps[n];
      forall i | 0 <= i < |rest|
        ensures PromotesUnrepeated(RunControl(rest[..i], interval), rest[i], interval)
      {
        assert rest[..i] == steps[..i];
      }
      RunKeepsControl(rest, interval);
      var c := RunControl(rest, interval);
      if Possible(c, step) {
        match step
        case Offered(_, _, _, _) => OfferKeeps(c, step, interval);
        case Did(op) =>
          OnlyOffersRecord(c, op);
          StepKeepsAuthorities(c.db, op);
        case Began(_) =>
        case Recorded(_, _) =>
      }
    }
  }

  lemma OnlyOffersRecord(c: Control, op: StoreOp)
    requires Possible(c, Did(op))
    ensures !op.OpRecordAuthority?
  {
  }

  /** Whatever happened before, behind every authority stand at least two accepted votes from different
      sessions and certificates for exactly its state, at least an interval apart, and it was complete. */
  lemma AuthoritiesAreConfirmed(steps: seq<ControlStep>, interval: nat, certificate: Digest) returns (scope: Digest, chain: seq<Vote>)
    requires forall i :: 0 <= i < |steps| ==> PromotesUnrepeated(RunControl(steps[..i], interval), steps[i], interval)
    requires certificate in RunControl(steps, interval).db.authorities
    ensures var c := RunControl(steps, interval);
            && c.db.authorities[certificate].complete
            && IsChain(c.register.votes, scope, chain, interval) && |chain| >= 2
            && (forall i :: 0 <= i < |chain| ==> chain[i].semanticHash == c.db.authorities[certificate].semanticHash)
            && chain[|chain| - 1].asOf - chain[0].asOf >= interval
            && (forall i :: 0 < i < |chain| ==> CloseValues(chain[i - 1].valuations, chain[i].valuations))
  {
    hide RunControl, RegisterInv, CountMeansAgreement;
    RunKeepsControl(steps, interval);
    var c := RunControl(steps, interval);
    var state := c.db.authorities[certificate].semanticHash;
    var v: Vote, length: nat;
    scope, v, length :| ChainEnds(c.register.votes, scope, v, length, interval) && length >= 2 && v.semanticHash == state;
    chain :| IsChain(c.register.votes, scope, chain, interval) && chain[|chain| - 1] == v && |chain| == length;
    ChainSpans(c.register.votes, scope, chain, interval);
    assert (|chain| - 1) * interval >= interval;
    ChainAgrees(c.register.votes, scope, chain, interval);
    ChainIsClose(c.register.votes, scope, chain, interval);
  }

  /** The authority that this step writes, if it writes one, is confirmed by the newest votes as they are then. */
  ghost predicate PromotesConfirmed(c: Control, step: ControlStep, interval: nat) {
    Promotes(c, step, interval) ==>
      && step.identity.scope.Some? && step.identity.semanticHash.Some?
      && NewestConfirms(NextControl(c, step, interval).register, step.identity.scope.value, step.identity.semanticHash.value, interval)
  }

  /** Over whole runs: every authority is confirmed when it is written if and only if no promoted observation had been
      offered before about another state than that of its scope's row. */
  lemma PromotionsConfirmedExactly(steps: seq<ControlStep>, interval: nat)
    ensures (forall n :: 0 <= n < |steps| ==> PromotesConfirmed(RunControl(steps[..n], interval), steps[n], interval))
            <==> (forall n :: 0 <= n < |steps| ==> PromotesUnrepeated(RunControl(steps[..n], interval), steps[n], interval))
  {
    hide RunControl, NewestConfirms, Promotes, Unrepeated, NextControl, RegisterInv, CountMeansAgreement;
    forall n | 0 <= n < |steps|
      ensures PromotesConfirmed(RunControl(steps[..n], interval), steps[n], interval)
              <==> PromotesUnrepeated(RunControl(steps[..n], interval), steps[n], interval)
    {
      var c := RunControl(steps[..n], interval);
      RunKeepsRegister(steps[..n], interval);
      if Promotes(c, steps[n], interval) { PromotionConfirmedExactly(c, steps[n], interval); }
    }
  }

  lemma {:induction false} ChainAgrees(votes: map<Digest, Vote>, scope: Digest, chain: seq<Vote>, interval: nat)
    requires IsChain(votes, scope, chain, interval)
    ensures forall i :: 0 <= i < |chain| ==> chain[i].semanticHash == chain[|chain| - 1].semanticHash
    decreases |chain|
  {
    if |chain| > 1 {
      var n := |chain| - 1;
      var rest := chain[..n];
      assert IsChain(votes, scope, rest, interval);
      ChainAgrees(votes, scope, rest, interval);
      assert Confirms(chain[n - 1], chain[n], interval);
      forall i | 0 <= i < |chain|
        ensures chain[i].semanticHash == chain[n].semanticHash
      {
        if i < n { assert rest[i] == chain[i]; }
      }
    }
  }

  /* ---------- The freeze ---------- */

  ghost predicate GateSound(gate: Gate) { GateInv(gate) && SourcesBlock(gate) }

  /** A ticket of the reconciler always closes the gate. */
  lemma ReconcilerTicketFreezes(gate: Gate, reason: FreezeReason, at: Time)
    requires GateSound(gate)
    ensures var r := OpenTicket(gate, reason, ReconcilerSource, Blocking, at, false); r.Ok? ==> GateSound(r.value) && r.value.frozen
  {
    OpenKeepsGate(gate, reason, ReconcilerSource, Blocking, at, false);
    TicketKeepsSources(gate, reason, ReconcilerSource, at);
    OpenBlockingFreezes(gate, reason, ReconcilerSource, at, false);
    if HasUnresolved(gate.tickets, reason, ReconcilerSource) { OpenSourceFreezes(gate, reason, ReconcilerSource); }
  }

  lemma ConcludeGate(db: Tables, run: RunId, found: set<Discrepancy>, at: Time)
    requires GateSound(db.gate) && Conclude(db, run, found, at).Ok?
    ensures var (after, report) := Conclude(db, run, found, at).value;
            GateSound(after.gate) && (report.frozen ==> after.gate.frozen) && (report.frozen <==> report.status == Blocked)
  {
    hide OpenTicket, Unfreeze, StatusOf, Lifecycles, GateSound;
    ReconcilerTicketFreezes(db.gate, CriticalDiscrepancy, at);
    UnfreezeSound(db.gate);
  }

  lemma UnfreezeSound(gate: Gate)
    requires GateSound(gate)
    ensures GateSound(Unfreeze(gate))
  {
    UnfreezeKeepsGate(gate);
    UnfreezeKeepsSources(gate);
  }

  lemma ReconcileGate(db: Tables, s: BrokerSnapshot, at: Time)
    requires GateSound(db.gate)
    ensures var r := Reconcile(db, s, at);
            r.Ok? ==> GateSound(r.value.0.gate) && (r.value.1.frozen ==> r.value.0.gate.frozen) && (r.value.1.frozen <==> r.value.1.status == Blocked)
  {
    hide CaughtUp, Findings, OpenTicket, RecoverClaimed, Conclude, GateSound, SetBaseline;
    var ticket := OpenTicket(db.gate, ReconciliationInProgress, ReconcilerSource, Blocking, at, false);
    var r := Reconcile(db, s, at);
    if r.Ok? {
      ReconcilerTicketFreezes(db.gate, ReconciliationInProgress, at);
      var started := db.(gate := ticket.value, runs := db.runs[RunId(s.asOf, at) := Running]);
      CaughtUpSetting(started, s);
      var caughtUp := CaughtUp(started, s).value;
      BaselineGate(caughtUp, s);
      ConcludeGate(SetBaseline(caughtUp, s), RunId(s.asOf, at), Findings(RecoverClaimed(started, started.outbox.Keys).intents, caughtUp, s), at);
    }
  }

  lemma PromotionGate(db: Tables, s: BrokerSnapshot, id: Identity, report: Report, at: Time)
    requires id.certificate.Some? && id.semanticHash.Some? && GateSound(db.gate) && (report.frozen ==> db.gate.frozen)
    ensures var r := Promoted(db, s, id, report, at);
            r.Ok? ==> GateSound(r.value.0.gate) && (r.value.1.frozen ==> r.value.0.gate.frozen)
  {
    hide OpenTicket, GateSound, ComponentsComplete, RecordAuthority, AuthorityOf;
    ReconcilerTicketFreezes(db.gate, AuthorityComponentsIncomplete, at);
    RecordedGate(db, id.certificate.value, AuthorityOf(s, id), report.status);
  }

  lemma RecordedGate(db: Tables, certificate: Digest, row: AuthorityRow, status: RunStatus)
    ensures RecordAuthority(db, certificate, row, status).db.gate == db.gate
  {
  }

  lemma AwaitingGate(db: Tables, id: Identity, count: nat, at: Time)
    requires GateSound(db.gate)
    ensures var r := Awaiting(db, id, count, at);
            r.Ok? ==> GateSound(r.value.0.gate) && r.value.0.gate.frozen && r.value.1.frozen && r.value.0.intents == db.intents && r.value.0.outbox == db.outbox
  {
    hide OpenTicket, GateSound;
    ReconcilerTicketFreezes(db.gate, ConsensusPending, at);
  }

  lemma IncompleteGate(db: Tables, s: BrokerSnapshot, at: Time)
    requires GateSound(db.gate)
    ensures var r := Incomplete(db, s, at);
            r.result.Ok? ==> GateSound(r.db.gate) && r.db.gate.frozen && r.result.value.frozen && r.db.intents == db.intents && r.db.outbox == db.outbox
  {
    hide OpenTicket, GateSound;
    ReconcilerTicketFreezes(db.gate, IncompleteBrokerSnapshot, at);
  }

  /** A report that says frozen leaves the store frozen; and a snapshot that is incomplete or not agreed on
      always freezes the store, with the intents and the commands untouched. */
  lemma OnlyAgreementUnfreezes(c: Control, s: BrokerSnapshot, id: Identity, previous: Option<Vote>, at: Time, interval: nat)
    requires GateSound(c.db.gate)
    ensures var r := Authoritative(c, s, id, previous, at, interval).1;
            && (r.Ok? && r.value.1.frozen ==> r.value.0.gate.frozen)
            && (r.Ok? ==> GateSound(r.value.0.gate))
            && (r.Ok? && (!s.complete || !Registered(c.register, ObservationOf(s, id), previous, at, interval).1.agreed) ==>
                  r.value.0.gate.frozen && r.value.1.frozen && r.value.0.intents == c.db.intents && r.value.0.outbox == c.db.outbox)
  {
    hide GateSound, Registered, Reconcile, Promoted, Awaiting, Incomplete;
    IncompleteGate(c.db, s, at);
    var o := ObservationOf(s, id);
    var verdict := Registered(c.register, o, previous, at, interval).1;
    AwaitingGate(c.db, id, verdict.count, at);
    var run := Reconcile(c.db, s, at);
    if s.complete && verdict.agreed && run.Ok? {
      AgreedHasRow(c.register, o, previous, at, interval);
      ReconcileGate(c.db, s, at);
      PromotionGate(run.value.0, s, id, run.value.1, at);
    }
  }

  /* ---------- The procedure over the store ---------- */

  class AuthoritativeReconciler {
    const reconciler: Reconciler
    const consensus: SnapshotConsensus

    constructor (reconciler: Reconciler, consensus: SnapshotConsensus)
      ensures this.reconciler == reconciler && this.consensus == consensus
    {
      this.reconciler, this.consensus := reconciler, consensus;
    }

    /** Freezes the store and writes down that agreement is missing. */
    method NoteMissingAgreement(id: Identity, count: nat, at: Time) returns (r: Result<Report>)
      modifies reconciler.store`gate, reconciler.store`runs, reconciler.store`discrepancies
      ensures var awaited := Awaiting(old(reconciler.store.State()), id, count, at);
              if awaited.Ok? then
                && r == Ok(awaited.value.1) && reconciler.store.gate == awaited.value.0.gate
                && reconciler.store.runs == awaited.value.0.runs && reconciler.store.discrepancies == awaited.value.0.discrepancies
              else r == Err(awaited.error)
    {
      hide OpenTicket;
      var store := reconciler.store;
      var ticket := store.OpenFreezeTicket(ConsensusPending, ReconcilerSource, Blocking, at, false);
      if ticket.Err? { return Err(ticket.error); }
      var run, d := ConsensusRun(id.semanticHash, id.scope, count, at), ConsensusPendingFound(id.scope, count);
      if run !in store.runs { store.runs := store.runs[run := AwaitingConsensus]; }
      if d !in store.discrepancies { store.discrepancies := store.discrepancies[d := OpenRow]; }
      r := Ok(Report(AwaitingConsensus, {d}, true));
    }

    method AwaitAgreement(id: Identity, count: nat, at: Time) returns (r: Result<Report>)
      modifies reconciler.store
      ensures var awaited := Awaiting(old(reconciler.store.State()), id, count, at);
              if awaited.Ok? then r == Ok(awaited.value.1) && reconciler.store.State() == awaited.value.0 else r == Err(awaited.error)
    {
      hide Awaiting;
      AwaitingWrites(reconciler.store.State(), id, count, at);
      r := NoteMissingAgreement(id, count, at);
    }

    /** Records the authority of a converged snapshot, or freezes the store again if its components are incomplete. */
    method Promote(s: BrokerSnapshot, id: Identity, report: Report, at: Time) returns (r: Result<Report>)
      requires id.certificate.Some? && id.semanticHash.Some?
      modifies reconciler.store`authorities, reconciler.store`gate
      ensures var promoted := Promoted(old(reconciler.store.State()), s, id, report, at);
              if promoted.Ok? then
                && r == Ok(promoted.value.1)
                && reconciler.store.authorities == promoted.value.0.authorities && reconciler.store.gate == promoted.value.0.gate
              else r == Err(promoted.error)
    {
      hide OpenTicket;
      var promoted := reconciler.store.RecordSnapshotAuthority(id.certificate.value, AuthorityOf(s, id), report.status);
      if report.status == Converged && !promoted {
        var ticket := reconciler.store.OpenFreezeTicket(AuthorityComponentsIncomplete, ReconcilerSource, Blocking, at, false);
        if ticket.Err? { return Err(ticket.error); }
        return Ok(report.(status := AuthorityRejected, frozen := true));
      }
      r := Ok(report);
    }

    method ReconcileAgreed(s: BrokerSnapshot, id: Identity, at: Time) returns (r: Result<Report>)
      requires s.complete && id.certificate.Some? && id.semanticHash.Some?
      modifies reconciler.store
      ensures var run := Agreed(old(reconciler.store.State()), s, id, at);
              if run.Ok? then r == Ok(run.value.1) && reconciler.store.State() == run.value.0 else r == Err(run.error)
    {
      hide Reconcile, Promoted, Incomplete;
      var run := reconciler.ReconcileAny(s, at);
      if run.Err? { return run; }
      PromotionWrites(reconciler.store.State(), s, id, run.value, at);
      r := Promote(s, id, run.value, at);
    }

    /** Votes, and reconciles only with agreement. */
    method ReconcileAuthoritative(s: BrokerSnapshot, id: Identity, at: Time, interval: nat)
      returns (r: Result<Report>, ghost previous: Option<Vote>)
      requires RegisterInv(consensus.State(), interval)
      modifies reconciler.store, consensus
      ensures RegisterInv(consensus.State(), interval)
      ensures s.complete && WellFormed(ObservationOf(s, id)) && id.observationId.value !in old(consensus.votes) ==>
                IsLatest(old(consensus.votes), id.scope.value, previous)
      ensures var (register, run) := Authoritative(Control(old(reconciler.store.State()), old(consensus.State())), s, id, previous, at, interval);
              && consensus.State() == register
              && if run.Ok? then r == Ok(run.value.1) && reconciler.store.State() == run.value.0 else r == Err(run.error)
    {
      hide Agreed, Incomplete, Awaiting, RegisterInv, IsLatest;
      previous := None;
      if !s.complete {
        r := reconciler.ReconcileAny(s, at);
        return;
      }
      ghost var c := Control(reconciler.store.State(), consensus.State());
      var verdict;
      verdict, previous := consensus.RegisterSnapshot(ObservationOf(s, id), at, interval);
      assert (consensus.State(), verdict) == Registered(c.register, ObservationOf(s, id), previous, at, interval);
      if !verdict.agreed {
        r := AwaitAgreement(id, verdict.count, at);
      } else {
        AgreedHasRow(c.register, ObservationOf(s, id), previous, at, interval);
        r := ReconcileAgreed(s, id, at);
      }
    }
  }

  lemma AwaitingWrites(db: Tables, id: Identity, count: nat, at: Time)
    ensures var r := Awaiting(db, id, count, at);
            r.Ok? ==> r.value.0 == db.(gate := r.value.0.gate, runs := r.value.0.runs, discrepancies := r.value.0.discrepancies)
  {
    hide OpenTicket;
  }

  lemma PromotionWrites(db: Tables, s: BrokerSnapshot, id: Identity, report: Report, at: Time)
    requires id.certificate.Some? && id.semanticHash.Some?
    ensures var r := Promoted(db, s, id, report, at);
            r.Ok? ==> r.value.0 == db.(authorities := r.value.0.authorities, gate := r.value.0.gate)
  {
    hide OpenTicket;
  }
}
