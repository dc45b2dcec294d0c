/** The promises of the control plane, over every interleaving of its steps. */
module SystemTheorems {
  import opened BrokerModel
  import opened ControlModels
  import opened ControlTables
  import opened Convergence
  import opened ExecutionSystem
  import opened FreezeGate
  import opened Ledger
  import opened ProtectionLaws
  import opened ReconciliationModel
  import opened StoreInvariants
  import opened StoreRuns
  import opened SystemInvariants

  /* ---------- Protection ---------- */

  predicate Protecting(b: Broker) { MissingProtection !in b.scenarios && FullyProtected(b.orders) }

  /** No order is asked to be opened without protection. */
  predicate KeepsProtection(move: Label) { move != QueueScenario(MissingProtection) }

  lemma FillProtects(b: Broker, k: ClientOrderKey, quantity: int, price: Price, at: Time)
    requires Protecting(b)
    ensures Protecting(FillAt(b, k, quantity, price, at).broker)
  {
  }

  lemma SubmitProtects(b: Broker, intent: ExecutionIntent, token: nat, at: Time)
    requires Protecting(b)
    ensures Protecting(Submit(b, intent, token, at).broker)
  {
    hide FillOrder;
    if token >= b.highestToken && intent.Key() !in b.orders && NextScenario(b) == PartialFillScenario {
      var k := intent.Key();
      var placed := AcceptOrder(PopScenario(b.(highestToken := token)), intent, PartialFillScenario);
      var ack := NextEvent(placed, k, b.nextOrderId, Ack, 0, None, 0, at);
      FillProtects(Emit(placed, ack), k, Max(1, k.quantity / 2), k.limitPrice, at);
    }
  }

  lemma CancelProtects(b: Broker, k: ClientOrderKey, token: nat, at: Time)
    requires Protecting(b)
    ensures Protecting(Cancel(b, k, token, 0, at).broker)
  {
    hide FillOrder;
  }

  lemma SendProtects(s: System, w: Name, at: Time)
    requires Protecting(s.broker) && w in s.workers
    ensures Protecting(AfterSend(s, w, at).broker)
  {
    hide Protecting, Submit, Cancel;
    var token := s.workers[w].lease.fencingToken;
    match s.workers[w].phase
    case SubmitValidated(intent) => SubmitProtects(s.broker, intent, token, at);
    case CancelValidated(intent) => CancelProtects(s.broker, intent.Key(), token, at);
    case _ =>
  }

  /** Store steps leave the broker alone. */
  lemma StoreLeavesBroker(s: System, move: Label)
    requires !move.WorkerSend? && !move.QueueScenario? && !move.MarketFill? && !move.MarketCommission? && !move.StartWorker?
    ensures Step(s, move).broker == s.broker && Step(s, move).tokens == s.tokens
  {
    hide ClaimNext, ClaimNextCancel, Ingest, ApplyOp, Reconcile, Snapshot, SetBaseline, LeaseCurrent;
    hide ResolveUnknown, Unguarded;
    hide MarkDelivered, MarkSubmissionUnknown, MarkCancelDelivered, MarkCancelUnknown, InSight, EventSet;
  }

  lemma StepProtects(s: System, move: Label)
    requires Protecting(s.broker) && KeepsProtection(move)
    ensures Protecting(Step(s, move).broker)
  {
    hide Protecting, AfterSend, FillAt, ChargeCommission, EnqueueScenario;
    match move
    case QueueScenario(scenario) => ScenarioProtects(s.broker, scenario);
    case MarketFill(key, quantity, price, at) => FillProtects(s.broker, key, quantity, price, at);
    case MarketCommission(key, amount, at) => CommissionProtects(s.broker, key, amount, at);
    case StartWorker(_, lease) => FenceProtects(s.broker, lease.fencingToken);
    case WorkerSend(w, at) => if w in s.workers { SendProtects(s, w, at); }
    case _ => StoreLeavesBroker(s, move);
  }

  lemma ScenarioProtects(b: Broker, scenario: Scenario)
    requires Protecting(b) && scenario != MissingProtection
    ensures Protecting(EnqueueScenario(b, scenario))
  {
  }

  lemma CommissionProtects(b: Broker, k: ClientOrderKey, amount: int, at: Time)
    requires Protecting(b)
    ensures Protecting(ChargeCommission(b, k, amount, at).broker)
  {
  }

  lemma FenceProtects(b: Broker, token: nat)
    requires Protecting(b)
    ensures Protecting(AdvanceFence(b, token).broker)
  {
  }

  lemma {:induction false} RunProtects(startingCash: Money, moves: seq<Label>)
    requires forall m :: m in moves ==> KeepsProtection(m)
    ensures Protecting(Run(NewSystem(startingCash), moves).broker)
  {
    if moves != [] {
      hide Step, Protecting, NewSystem;
      RunProtects(startingCash, moves[..|moves| - 1]);
      StepProtects(Run(NewSystem(startingCash), moves[..|moves| - 1]), moves[|moves| - 1]);
    }
  }

  /** Without MISSING_PROTECTION no buy order is ever short of protection. */
  lemma RunCovers(startingCash: Money, moves: seq<Label>)
    requires forall m :: m in moves ==> KeepsProtection(m)
    ensures !Uncovered(Run(NewSystem(startingCash), moves).broker.orders)
  {
    hide Run, SystemInv, BrokerInv, FullyProtected, Uncovered;
    var s := Run(NewSystem(startingCash), moves);
    RunKeeps(startingCash, moves);
    BrokerOf(s, startingCash);
    RunProtects(startingCash, moves);
    FullyProtectedIsCovered(s.broker, startingCash);
  }

  /* ---------- Convergence ---------- */

  /** From empty store and broker, after any interleaving, also one with baselines and whole runs from snapshots of
      the past: reconciling a current snapshot raises exactly when `Raises` says so. Otherwise it reports exactly a
      baseline that has drifted by more than a cent and what lacks protection, it converges exactly when there is
      neither, and it leaves store and broker in agreement and every command settled. */
  lemma ConvergesAfterAnyRun(startingCash: Money, moves: seq<Label>, asOf: Time, at: Time)
    ensures var s := Run(NewSystem(startingCash), moves);
            var drift := Drift(s.db, startingCash);
            && BrokerListed(s.broker)
            && var r := Reconcile(s.db, Snapshot(s.broker, asOf), at);
            && (r.Err? <==> Raises(s.db, s.broker, startingCash, asOf, at))
            && (r.Ok? ==>
                  && r.value.1 == ReportOf(s.broker, drift) && (r.value.1.status == Converged <==> Clean(s.broker, drift))
                  && Agreement(r.value.0, s.broker, drift) && Settled(s.db, r.value.0, s.broker.orders.Keys)
                  && (Clean(s.broker, drift) ==> (r.value.0.gate.frozen <==> BlockedElsewhere(s.db.gate)))
                  && OpenRows(r.value.0.discrepancies) == r.value.1.discrepancies)
  {
    hide Run, SystemInv, InStep, Agreement, Settled, BlockedElsewhere, Reconcile, OpenRows, BrokerInv;
    hide StatusesBacked, StoreInv, Raises, Drift, Clean, Misjudged;
    var s := Run(NewSystem(startingCash), moves);
    RunKeeps(startingCash, moves);
    BrokerOf(s, startingCash);
    ReconcileExactly(s.db, s.broker, startingCash, asOf, at);
  }

  /* ---------- At most one economic execution ---------- */

  /** In every interleaving a key has at most one broker order, opened once, for the very intent that was
      staged, and its fills never exceed the intent's quantity. A key without a staged intent has none. */
  lemma AtMostOneExecution(startingCash: Money, moves: seq<Label>, k: ClientOrderKey)
    ensures var s := Run(NewSystem(startingCash), moves);
            var events := EventSet(s.broker.events);
            && Acceptances(events, k) == (if k in s.broker.orders then 1 else 0)
            && FilledQuantity(events, k) == (if k in s.broker.orders then s.broker.orders[k].filled else 0) <= k.quantity
            && (k in s.broker.orders ==> k in s.db.intents && s.broker.orders[k].intent == s.db.intents[k].intent)
  {
    hide Run, SystemInv, FilledQuantity, Acceptances, StoreInv, StatusesBacked, BooksBalance, SequencesIncrease;
    hide KeysListed, InStep;
    var s := Run(NewSystem(startingCash), moves);
    RunKeeps(startingCash, moves);
    BrokerOf(s, startingCash);
    StoresStaged(s, startingCash);
    if k in s.broker.orders {
      assert OrderMatches(k, s.broker.orders[k], EventSet(s.broker.events));
    } else {
      UnseenKey(EventSet(s.broker.events), k);
    }
  }

  /** The broker's books are conserved in every interleaving. */
  lemma BrokerConserves(startingCash: Money, moves: seq<Label>)
    ensures var b := Run(NewSystem(startingCash), moves).broker;
            var events := EventSet(b.events);
            && b.cash == startingCash + CashFlow(events)
            && b.positions == PositionBook(events)
            && forall k :: k in b.orders ==> b.orders[k].filled == FilledQuantity(events, k)
  {
    hide Run, SystemInv, FilledQuantity, Acceptances, CashFlow, PositionBook, StoreInv, StatusesBacked;
    hide SequencesIncrease, KeysListed, InStep;
    RunKeeps(startingCash, moves);
    var s := Run(NewSystem(startingCash), moves);
    BrokerOf(s, startingCash);
    forall k | k in s.broker.orders
      ensures s.broker.orders[k].filled == FilledQuantity(EventSet(s.broker.events), k)
    {
      assert OrderMatches(k, s.broker.orders[k], EventSet(s.broker.events));
    }
  }

  /** The tokens of accepted broker writes never decrease. */
  lemma TokensNeverDecrease(startingCash: Money, moves: seq<Label>, i: nat, j: nat)
    requires i <= j < |Run(NewSystem(startingCash), moves).tokens|
    ensures Run(NewSystem(startingCash), moves).tokens[i] <= Run(NewSystem(startingCash), moves).tokens[j]
                                                         <= Run(NewSystem(startingCash), moves).broker.highestToken
  {
    hide Run, InStep, WorkersSound;
    RunKeeps(startingCash, moves);
  }

  /** A worker whose token is older than any the broker has accepted cannot write: its send kills it and
      leaves the broker as it was. */
  lemma StaleWorkerCannotWrite(startingCash: Money, moves: seq<Label>, w: Name, i: nat, at: Time)
    requires var s := Run(NewSystem(startingCash), moves);
             && w in s.workers && (s.workers[w].phase.SubmitValidated? || s.workers[w].phase.CancelValidated?)
             && i < |s.tokens| && s.workers[w].lease.fencingToken < s.tokens[i]
    ensures var s := Run(NewSystem(startingCash), moves);
            Step(s, WorkerSend(w, at)) == Dead(s, w)
  {
    hide Run, InStep, WorkersSound;
    RunKeeps(startingCash, moves);
  }
}
