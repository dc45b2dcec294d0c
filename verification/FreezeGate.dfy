/** Freeze tickets and the frozen flag they drive. */
module FreezeGate {
  import opened ControlModels

  datatype Severity = Blocking | Advisory

  datatype FreezeReason =
    | StartupReconciliation | ReconciliationInProgress | CriticalDiscrepancy
    | IncompleteBrokerSnapshot | ConsensusPending | BrokerAuthorityStale
    | MarketQuoteStale | BrokerOnlyOrderOrEvent | AuthorityComponentsIncomplete | OtherReason(Name)

  datatype TicketSource = System | ReconcilerSource | ApprovalArmSource | Legacy | OtherSource(Name)

  /** The first startup ticket has a fixed id; every other id hashes the three fields below. */
  datatype TicketId = StartupRow | TicketDigest(reason: FreezeReason, source: TicketSource, createdAt: Time)

  datatype Ticket = Ticket(reason: FreezeReason, source: TicketSource, severity: Severity, resolved: bool)

  datatype Gate = Gate(frozen: bool, tickets: map<TicketId, Ticket>)

  /** The gate of a database that has just been created. */
  const NEW_GATE := Gate(true, map[StartupRow := Ticket(StartupReconciliation, System, Blocking, false)])

  predicate AnyBlocking(tickets: map<TicketId, Ticket>) {
    exists id :: id in tickets && !tickets[id].resolved && tickets[id].severity == Blocking
  }

  predicate HasUnresolved(tickets: map<TicketId, Ticket>, reason: FreezeReason, source: TicketSource) {
    exists id :: id in tickets && !tickets[id].resolved && tickets[id].reason == reason && tickets[id].source == source
  }

  /** No ticket of this reason and source is open, but one of the same time was resolved: its id is taken. */
  predicate TicketTaken(tickets: map<TicketId, Ticket>, reason: FreezeReason, source: TicketSource, at: Time) {
    !HasUnresolved(tickets, reason, source) && TicketDigest(reason, source, at) in tickets
  }

  /** Opening is idempotent while a ticket of the same reason and source is unresolved. */
  function OpenTicket(
    gate: Gate, reason: FreezeReason, source: TicketSource, severity: Severity, at: Time, inTransaction: bool)
    : Result<Gate>
  {
    var id := TicketDigest(reason, source, at);
    if HasUnresolved(gate.tickets, reason, source) then Ok(gate)
    else if id in gate.tickets then Err(IntegrityError)
    else
      var tickets := gate.tickets[id := Ticket(reason, source, severity, false)];
      Ok(Gate(inTransaction || AnyBlocking(tickets), tickets))
  }

  function Resolved(tickets: map<TicketId, Ticket>, reason: FreezeReason, source: TicketSource): map<TicketId, Ticket> {
    map id | id in tickets ::
      if tickets[id].reason == reason && tickets[id].source == source then tickets[id].(resolved := true)
      else tickets[id]
  }

  /** Resolving a ticket does not by itself lift the freeze. */
  function ResolveTicket(gate: Gate, reason: FreezeReason, source: TicketSource): Gate {
    gate.(tickets := Resolved(gate.tickets, reason, source))
  }

  /** The (reason, source) pairs that a converged reconciliation resolves. */
  const RECONCILIATION_TICKETS: seq<(FreezeReason, TicketSource)> := [
    (StartupReconciliation, System),
    (ReconciliationInProgress, ReconcilerSource),
    (CriticalDiscrepancy, ReconcilerSource),
    (IncompleteBrokerSnapshot, ReconcilerSource),
    (ConsensusPending, ReconcilerSource)]

  function ResolvedAny(tickets: map<TicketId, Ticket>, pairs: seq<(FreezeReason, TicketSource)>): map<TicketId, Ticket> {
    map id | id in tickets ::
      if (tickets[id].reason, tickets[id].source) in pairs then tickets[id].(resolved := true) else tickets[id]
  }

  /** A converged reconciliation resolves its own five tickets and recomputes the flag. */
  function Unfreeze(gate: Gate): Gate {
    var tickets := ResolvedAny(gate.tickets, RECONCILIATION_TICKETS);
    Gate(AnyBlocking(tickets), tickets)
  }

  lemma ResolvedOneMore(tickets: map<TicketId, Ticket>, pairs: seq<(FreezeReason, TicketSource)>, pair: (FreezeReason, TicketSource))
    ensures Resolved(ResolvedAny(tickets, pairs), pair.0, pair.1) == ResolvedAny(tickets, pairs + [pair])
  {
  }

  /** Reopening the database demands a fresh startup reconciliation. */
  function Reopen(gate: Gate, at: Time): Result<Gate> {
    var tickets := if StartupRow in gate.tickets then gate.tickets else gate.tickets[StartupRow := NEW_GATE.tickets[StartupRow]];
    OpenTicket(gate.(tickets := tickets), StartupReconciliation, System, Blocking, at, false)
  }

  /** An unresolved blocking ticket always shows in the frozen flag. */
  predicate GateClosed(gate: Gate) { AnyBlocking(gate.tickets) ==> gate.frozen }

  /** The startup row of the first creation is never deleted. */
  predicate GateInv(gate: Gate) { GateClosed(gate) && StartupRow in gate.tickets }

  lemma NewGateInv()
    ensures GateInv(NEW_GATE) && NEW_GATE.frozen
  {
  }

  lemma OpenKeepsGate(gate: Gate, reason: FreezeReason, source: TicketSource, severity: Severity, at: Time, inTransaction: bool)
    requires GateInv(gate)
    ensures var r := OpenTicket(gate, reason, source, severity, at, inTransaction);
            r.Ok? ==> GateInv(r.value) && gate.tickets.Keys <= r.value.tickets.Keys
  {
  }

  /** Opening a blocking ticket raises exactly when its id is taken. Otherwise a blocking ticket is open afterwards,
      and the gate closed, exactly when that was so before or no ticket of the same reason and source was open: an open
      advisory ticket of that reason and source is the one that stands in its way. */
  lemma OpenBlockingFreezes(gate: Gate, reason: FreezeReason, source: TicketSource, at: Time, inTransaction: bool)
    ensures var r := OpenTicket(gate, reason, source, Blocking, at, inTransaction);
            && (r.Err? <==> TicketTaken(gate.tickets, reason, source, at))
            && (r.Ok? ==> (AnyBlocking(r.value.tickets) <==> AnyBlocking(gate.tickets) || !HasUnresolved(gate.tickets, reason, source)))
            && (r.Ok? ==> (r.value.frozen <==> gate.frozen || !HasUnresolved(gate.tickets, reason, source)))
  {
    var r := OpenTicket(gate, reason, source, Blocking, at, inTransaction);
    if r.Ok? && !HasUnresolved(gate.tickets, reason, source) {
      assert TicketDigest(reason, source, at) in r.value.tickets;
    }
  }

  /** Resolving, exactly: the open tickets of this reason and source, and no others, are closed, and the flag stays. */
  lemma ResolvedExactly(gate: Gate, reason: FreezeReason, source: TicketSource, id: TicketId)
    ensures var after := ResolveTicket(gate, reason, source);
            && after.frozen == gate.frozen && (id in after.tickets <==> id in gate.tickets)
            && (id in gate.tickets ==>
                  var was, now := gate.tickets[id], after.tickets[id];
                  && now.reason == was.reason && now.source == was.source && now.severity == was.severity
                  && (now.resolved <==> was.resolved || (was.reason == reason && was.source == source)))
    ensures !HasUnresolved(ResolveTicket(gate, reason, source).tickets, reason, source)
  {
  }

  lemma ResolveKeepsGate(gate: Gate, reason: FreezeReason, source: TicketSource)
    requires GateInv(gate)
    ensures GateInv(ResolveTicket(gate, reason, source))
  {
    var g := ResolveTicket(gate, reason, source);
    if AnyBlocking(g.tickets) {
      var id :| id in g.tickets && !g.tickets[id].resolved && g.tickets[id].severity == Blocking;
      assert id in gate.tickets && !gate.tickets[id].resolved && gate.tickets[id].severity == Blocking;
    }
  }

  lemma UnfreezeKeepsGate(gate: Gate)
    requires GateInv(gate)
    ensures GateInv(Unfreeze(gate))
  {
  }

  predicate OpenOutsideReconciliation(ticket: Ticket) {
    !ticket.resolved && ticket.severity == Blocking && (ticket.reason, ticket.source) !in RECONCILIATION_TICKETS
  }

  /** Unfreezing lifts the freeze exactly when no blocking ticket of any other kind is open. */
  lemma UnfreezeOpensExactly(gate: Gate)
    ensures Unfreeze(gate).frozen <==> exists id :: id in gate.tickets && OpenOutsideReconciliation(gate.tickets[id])
  {
    var after := ResolvedAny(gate.tickets, RECONCILIATION_TICKETS);
    if AnyBlocking(after) {
      var id :| id in after && !after[id].resolved && after[id].severity == Blocking;
      assert OpenOutsideReconciliation(gate.tickets[id]);
    }
    forall id | id in gate.tickets && OpenOutsideReconciliation(gate.tickets[id])
      ensures AnyBlocking(after)
    {
      assert id in after && !after[id].resolved && after[id].severity == Blocking;
    }
  }

  lemma ReopenKeepsGate(gate: Gate, at: Time)
    requires GateInv(gate)
    ensures var r := Reopen(gate, at); r.Ok? ==> GateInv(r.value)
  {
    assert gate.(tickets := gate.tickets) == gate;
    OpenKeepsGate(gate, StartupReconciliation, System, Blocking, at, false);
  }

  /** Reopening leaves a database frozen exactly when it was frozen or had no startup ticket open. */
  lemma ReopenFreezes(gate: Gate, at: Time)
    requires GateInv(gate)
    ensures var r := Reopen(gate, at);
            && (r.Err? <==> TicketTaken(gate.tickets, StartupReconciliation, System, at))
            && (r.Ok? ==> GateInv(r.value) && (r.value.frozen <==> gate.frozen || !HasUnresolved(gate.tickets, StartupReconciliation, System)))
  {
    assert gate.(tickets := gate.tickets) == gate;
    OpenBlockingFreezes(gate, StartupReconciliation, System, at, false);
    OpenKeepsGate(gate, StartupReconciliation, System, Blocking, at, false);
  }
}
