/** A concrete run in which an authority is written that nobody confirmed: two sessions agree on one state of an empty
    account, and then a first session's observation of another state is offered again. */
module UnconfirmedPromotion {
  import opened AuthoritativeReconciliation
  import opened BrokerModel
  import opened Consensus
  import opened ControlModels
  import opened ControlTables
  import opened Convergence
  import opened FreezeGate
  import opened ReconciliationModel
  import opened StoreInvariants
  import opened StoreRuns

  /* ---------- The calls ---------- */

  function Account(): Broker { NewBroker(0) }

  function Empty(asOf: Time): BrokerSnapshot { Snapshot(Account(), asOf) }

  function Named(n: nat, state: Digest): Identity {
    Identity(Some(n), Some(n), Some(n), Some(0), Some(state), n, 0, map[], Components(true, true, true, true, 0))
  }

  function FirstVote(): Vote { Cast(Sample(1, 1), 1, AcceptedFirst) }

  function SecondVote(): Vote { Cast(Sample(2, 2), 2, AcceptedDivergentReset) }

  function ThirdVote(): Vote { Cast(Sample(3, 2), 3, AcceptedIndependent) }

  function Calls(): seq<ControlStep> {
    [Offered(Empty(1), Named(1, 1), None, 1), Offered(Empty(2), Named(2, 2), Some(FirstVote()), 2),
     Offered(Empty(3), Named(3, 2), Some(SecondVote()), 3), Offered(Empty(1), Named(1, 1), Some(ThirdVote()), 4)]
  }

  /* ---------- The votes ---------- */

  function OneVote(): Register { Register(map[1 := FirstVote()], map[0 := ScopeRow(1, 1, 1, 1, 1)]) }

  function TwoVotes(): Register { Register(map[1 := FirstVote(), 2 := SecondVote()], map[0 := ScopeRow(2, 1, 2, 2, 2)]) }

  function ThreeVotes(): Register {
    Register(map[1 := FirstVote(), 2 := SecondVote(), 3 := ThirdVote()], map[0 := ScopeRow(2, 2, 2, 3, 3)])
  }

  lemma FirstVotes()
    ensures IsLatest(NEW_REGISTER.votes, 0, None) && Registered(NEW_REGISTER, Sample(1, 1), None, 1, 1) == (OneVote(), Verdict(false, 1))
    ensures IsLatest(OneVote().votes, 0, Some(FirstVote()))
    ensures Registered(OneVote(), Sample(2, 2), Some(FirstVote()), 2, 1) == (TwoVotes(), Verdict(false, 1))
  {
    var none: map<Digest, Vote> := map[];
    var rows: map<Digest, ScopeRow> := map[];
    assert none[1 := FirstVote()] == map[1 := FirstVote()] && rows[0 := ScopeRow(1, 1, 1, 1, 1)] == map[0 := ScopeRow(1, 1, 1, 1, 1)];
    assert map[1 := FirstVote()][2 := SecondVote()] == map[1 := FirstVote(), 2 := SecondVote()];
    assert map[0 := ScopeRow(1, 1, 1, 1, 1)][0 := ScopeRow(2, 1, 2, 2, 2)] == map[0 := ScopeRow(2, 1, 2, 2, 2)];
  }

  lemma LaterVotes()
    ensures IsLatest(TwoVotes().votes, 0, Some(SecondVote()))
    ensures Registered(TwoVotes(), Sample(3, 2), Some(SecondVote()), 3, 1) == (ThreeVotes(), Verdict(true, 2))
    ensures IsLatest(ThreeVotes().votes, 0, Some(ThirdVote()))
    ensures Registered(ThreeVotes(), Sample(1, 1), Some(ThirdVote()), 4, 1) == (ThreeVotes(), Verdict(true, 2))
  {
    assert map[0 := ScopeRow(2, 1, 2, 2, 2)][0 := ScopeRow(2, 2, 2, 3, 3)] == map[0 := ScopeRow(2, 2, 2, 3, 3)];
    assert map[1 := FirstVote(), 2 := SecondVote()][3 := ThirdVote()] == map[1 := FirstVote(), 2 := SecondVote(), 3 := ThirdVote()];
  }

  lemma NobodyConfirmed(scope: Digest, chain: seq<Vote>)
    requires IsChain(ThreeVotes().votes, scope, chain, 1) && |chain| >= 2
    ensures chain[|chain| - 1].semanticHash != 1
  {
    var n := |chain| - 1;
    assert Confirms(chain[n - 1], chain[n], 1);
    assert chain[n].observationId in ThreeVotes().votes && chain[n - 1].observationId in ThreeVotes().votes;
  }

  /* ---------- The store ---------- */

  predicate Dated(tickets: map<TicketId, Ticket>, at: Time) {
    forall id :: id in tickets && id.TicketDigest? ==> id.createdAt < at
  }

  /** In step with the empty account, nothing queued, and no ticket and no run is dated at this time or later. */
  ghost predicate Calm(db: Tables, at: Time) {
    && InStep(db, Account(), 0) && db.outbox == map[] && Drift(db, 0) == 0 && Dated(db.gate.tickets, at)
    && (forall run :: run in db.runs && run.RunId? ==> run.startedAt < at)
  }

  lemma NewIsCalm()
    ensures Calm(NEW_TABLES, 1)
  {
    NewTablesInv();
    NewBrokerInv(0);
    hide StoreInv, BrokerInv;
  }

  /** Tables that differ in gate, reports and authorities alone are as much in step. */
  lemma StaysInStep(db: Tables, after: Tables)
    requires InStep(db, Account(), 0) && GateInv(after.gate)
    requires after == db.(gate := after.gate, runs := after.runs, discrepancies := after.discrepancies, authorities := after.authorities)
    ensures InStep(after, Account(), 0) && Drift(after, 0) == Drift(db, 0)
  {
    hide StoreInv, BrokerInv, StatusBacked, EventSet, GateInv;
    UntouchedKeepsInv(db, after.(gate := db.gate));
    GateStepKeepsInv(after.(gate := db.gate), after.gate);
    SameCommands(db, after, Account().orders);
  }

  lemma TicketOpens(gate: Gate, reason: FreezeReason, at: Time)
    requires Dated(gate.tickets, at)
    ensures OpenTicket(gate, reason, ReconcilerSource, Blocking, at, false).Ok? && !TicketTaken(gate.tickets, reason, ReconcilerSource, at)
  {
  }

  lemma TicketDated(gate: Gate, reason: FreezeReason, at: Time)
    requires GateInv(gate) && Dated(gate.tickets, at + 1)
    ensures var r := OpenTicket(gate, reason, ReconcilerSource, Blocking, at, false); r.Ok? ==> GateInv(r.value) && Dated(r.value.tickets, at + 1)
  {
  }

  lemma UnfreezeDated(gate: Gate, at: Time)
    requires GateInv(gate) && Dated(gate.tickets, at)
    ensures GateInv(Unfreeze(gate)) && Dated(Unfreeze(gate).tickets, at)
  {
  }

  lemma CalmGate(db: Tables, at: Time)
    requires Calm(db, at)
    ensures GateInv(db.gate) && Dated(db.gate.tickets, at + 1)
  {
    hide BrokerInv, Linked, StatusesBacked, BaselineSound;
    StoreRuns.SoundGate(db);
  }

  lemma AwaitingStaysCalm(db: Tables, id: Identity, count: nat, at: Time)
    requires Calm(db, at)
    ensures var r := Awaiting(db, id, count, at); r.Ok? && Calm(r.value.0, at + 1) && r.value.0.authorities == db.authorities
    ensures Awaiting(db, id, count, at).value.1.status == AwaitingConsensus
  {
    hide InStep, OpenTicket, Drift, GateInv, Dated, TicketTaken;
    CalmGate(db, at);
    TicketOpens(db.gate, ConsensusPending, at);
    TicketDated(db.gate, ConsensusPending, at);
    StaysInStep(db, Awaiting(db, id, count, at).value.0);
  }

  lemma ConcludeDated(db: Tables, run: RunId, found: set<Discrepancy>, at: Time)
    requires GateInv(db.gate) && Dated(db.gate.tickets, at + 1)
    ensures var r := Conclude(db, run, found, at); r.Ok? ==> Dated(r.value.0.gate.tickets, at + 1)
  {
    hide OpenTicket, Unfreeze, StatusOf, Lifecycles, GateInv, Dated;
    TicketDated(db.gate, CriticalDiscrepancy, at);
    UnfreezeDated(db.gate, at + 1);
  }

  lemma BasedGate(db: Tables, s: BrokerSnapshot)
    ensures SetBaseline(db, s).gate == db.gate
  {
  }

  /** A run dates its tickets with its own time. */
  lemma ReconcileDated(db: Tables, s: BrokerSnapshot, at: Time)
    requires GateInv(db.gate) && Dated(db.gate.tickets, at + 1)
    ensures var r := Reconcile(db, s, at); r.Ok? ==> Dated(r.value.0.gate.tickets, at + 1)
  {
    hide OpenTicket, CaughtUp, Findings, RecoverClaimed, Conclude, GateInv, Dated, SetBaseline;
    var r := Reconcile(db, s, at);
    if r.Ok? {
      TicketDated(db.gate, ReconciliationInProgress, at);
      var gate := OpenTicket(db.gate, ReconciliationInProgress, ReconcilerSource, Blocking, at, false).value;
      var started := db.(gate := gate, runs := db.runs[RunId(s.asOf, at) := Running]);
      CaughtUpSetting(started, s);
      var caughtUp := CaughtUp(started, s).value;
      BasedGate(caughtUp, s);
      ConcludeDated(SetBaseline(caughtUp, s), RunId(s.asOf, at), Findings(RecoverClaimed(started, started.outbox.Keys).intents, caughtUp, s), at);
    }
  }

  lemma NothingRaises(db: Tables, asOf: Time, at: Time)
    requires Calm(db, at)
    ensures !Raises(db, Account(), 0, asOf, at) && Clean(Account(), Drift(db, 0))
  {
    hide InStep, TicketTaken;
    TicketOpens(db.gate, ReconciliationInProgress, at);
  }

  /** A reconciliation of the empty account converges. */
  lemma RunStaysCalm(db: Tables, asOf: Time, at: Time)
    requires Calm(db, at)
    ensures var r := Reconcile(db, Empty(asOf), at);
            r.Ok? && r.value.1 == Report(Converged, {}, false) && Calm(r.value.0, at + 1) && r.value.0.authorities == db.authorities
  {
    assert Account().orders.Keys == {};
    hide InStep, Reconcile, Raises, GateInv, Dated, Agreement, Snapshot, Clean, BlockedElsewhere, Drift, NewBroker;
    CalmGate(db, at);
    NothingRaises(db, asOf, at);
    ReconcileExactly(db, Account(), 0, asOf, at);
    ReconcileDated(db, Empty(asOf), at);
    ReconcileKeepsAuthorities(db, Empty(asOf), at);
  }

  /** With agreement the empty account becomes an authority. */
  lemma AgreedStaysCalm(db: Tables, n: nat, state: Digest, at: Time)
    requires Calm(db, at)
    ensures var r := Agreed(db, Empty(n), Named(n, state), at);
            && r.Ok? && r.value.1.status == Converged && Calm(r.value.0, at + 1)
            && r.value.0.authorities == db.authorities[n := AuthorityRow(state, n, true, USD)]
  {
    RunStaysCalm(db, n, at);
    assert ComponentsComplete(Empty(n), Named(n, state).components) && Empty(n).baseCurrency == USD && Empty(n).asOf == n;
    hide InStep, Reconcile, Snapshot, Drift, NewBroker, Dated;
    var done := Reconcile(db, Empty(n), at).value.0;
    CalmGate(done, at + 1);
    StaysInStep(done, Agreed(db, Empty(n), Named(n, state), at).value.0);
  }

  /* ---------- The run ---------- */

  lemma Observes(n: nat, state: Digest)
    ensures Empty(n).complete && ObservationOf(Empty(n), Named(n, state)) == Sample(n, state)
  {
  }

  lemma Waits(c: Control, n: nat, state: Digest, previous: Option<Vote>, at: Time, after: Register, count: nat)
    requires Calm(c.db, at) && IsLatest(c.register.votes, 0, previous)
    requires Registered(c.register, Sample(n, state), previous, at, 1) == (after, Verdict(false, count))
    ensures var next := NextControl(c, Offered(Empty(n), Named(n, state), previous, at), 1);
            next.register == after && Calm(next.db, at + 1) && next.db.authorities == c.db.authorities
  {
    hide Registered, IsLatest, Awaiting, Calm, Agreed, Sample;
    Observes(n, state);
    AwaitingStaysCalm(c.db, Named(n, state), count, at);
  }

  lemma Agrees(c: Control, n: nat, state: Digest, previous: Option<Vote>, at: Time, after: Register, count: nat)
    requires Calm(c.db, at) && IsLatest(c.register.votes, 0, previous)
    requires Registered(c.register, Sample(n, state), previous, at, 1) == (after, Verdict(true, count))
    ensures var next := NextControl(c, Offered(Empty(n), Named(n, state), previous, at), 1);
            next.register == after && Calm(next.db, at + 1) && next.db.authorities == c.db.authorities[n := AuthorityRow(state, n, true, USD)]
  {
    hide Registered, IsLatest, Awaiting, Calm, Agreed, Sample;
    Observes(n, state);
    AgreedStaysCalm(c.db, n, state, at);
  }

  lemma OneMoreCall(calls: seq<ControlStep>, n: nat)
    requires n < |calls|
    ensures RunControl(calls[..n + 1], 1) == NextControl(RunControl(calls[..n], 1), calls[n], 1)
  {
    hide NextControl;
    assert calls[..n + 1][..n] == calls[..n];
  }

  lemma FirstCalls()
    ensures var c := RunControl(Calls()[..2], 1); c.register == TwoVotes() && Calm(c.db, 3)
  {
    var calls := Calls();
    assert RunControl(calls[..0], 1) == NEW_CONTROL && NEW_CONTROL.register == NEW_REGISTER && NEW_CONTROL.db == NEW_TABLES;
    assert calls[0] == Offered(Empty(1), Named(1, 1), None, 1) && calls[1] == Offered(Empty(2), Named(2, 2), Some(FirstVote()), 2);
    hide *;
    NewIsCalm();
    FirstVotes();
    OneMoreCall(calls, 0);
    Waits(NEW_CONTROL, 1, 1, None, 1, OneVote(), 1);
    OneMoreCall(calls, 1);
    Waits(RunControl(calls[..1], 1), 2, 2, Some(FirstVote()), 2, TwoVotes(), 1);
  }

  lemma LaterCalls()
    ensures var c := RunControl(Calls()[..4], 1);
            c.register == ThreeVotes() && 1 in c.db.authorities && c.db.authorities[1].semanticHash == 1
  {
    var calls := Calls();
    assert calls[2] == Offered(Empty(3), Named(3, 2), Some(SecondVote()), 3) && calls[3] == Offered(Empty(1), Named(1, 1), Some(ThirdVote()), 4);
    hide *;
    FirstCalls();
    LaterVotes();
    OneMoreCall(calls, 2);
    Agrees(RunControl(calls[..2], 1), 3, 2, Some(SecondVote()), 3, ThreeVotes(), 2);
    OneMoreCall(calls, 3);
    Agrees(RunControl(calls[..3], 1), 1, 1, Some(ThirdVote()), 4, ThreeVotes(), 2);
  }

  /** The last call of this run writes an authority for state 1, and no two votes ever confirmed that state. */
  lemma UnconfirmedIsPromoted()
    ensures var c := RunControl(Calls(), 1);
            && 1 in c.db.authorities && c.db.authorities[1].semanticHash == 1
            && forall scope, chain: seq<Vote> :: IsChain(c.register.votes, scope, chain, 1) && |chain| >= 2 ==> chain[|chain| - 1].semanticHash != 1
  {
    assert Calls()[..4] == Calls();
    hide *;
    LaterCalls();
    forall scope, chain: seq<Vote> | IsChain(ThreeVotes().votes, scope, chain, 1) && |chain| >= 2
      ensures chain[|chain| - 1].semanticHash != 1
    {
      NobodyConfirmed(scope, chain);
    }
  }
}
