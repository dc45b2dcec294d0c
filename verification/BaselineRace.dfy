/** The baseline race: a baseline taken from a snapshot that is older than what the store has applied misjudges
    the broker's cash for good. When it does, and what the later reconciliations then say. */
module BaselineRace {
  import opened BrokerModel
  import opened ControlModels
  import opened ControlTables
  import opened Convergence
  import opened ExecutionSystem
  import opened Ledger
  import opened ProtectionLaws
  import opened ReconciliationModel
  import opened StoreFrames
  import opened StoreInvariants
  import opened StoreRuns
  import opened SystemInvariants
  import opened SystemTheorems

  /* ---------- Which steps touch the baseline ---------- */

  predicate TakesBaseline(move: Label) { move.TakeBaseline? || move.RunReconciliation? }

  lemma WorkerKeepsBaseline(s: System, startingCash: Money, move: Label, w: Name)
    requires SystemInv(s, startingCash) && w in s.workers
    ensures AfterWorker(s, move, w).db.baseline == s.db.baseline
  {
    hide SystemInv, StoreInv, BrokerInv, InStep, StatusesBacked, Submit, Cancel, LeaseCurrent, Follows;
    hide ClaimNext, ClaimNextCancel, MarkDelivered, MarkSubmissionUnknown, MarkCancelDelivered, MarkCancelUnknown, Ingest;
    BrokerOf(s, startingCash);
    var orders := s.broker.orders;
    match move
    case WorkerClaim(_, latest, at) => ClaimKeepsBaseline(s.db, s.workers[w].lease, latest, at, orders);
    case WorkerClaimCancel(_, at) =>
      ClaimCancelFollows(s.db, s.workers[w].lease, at, orders);
      FollowsBaseline(s.db, ClaimNextCancel(s.db, s.workers[w].lease, at).db, orders);
    case WorkerIngest(_) => AnswerKeepsBaseline(s, startingCash, w);
    case WorkerFinish(_, reason) => FinishKeepsBaseline(s, startingCash, w, reason);
    case _ =>
  }

  lemma FollowsBaseline(db: Tables, after: Tables, orders: map<ClientOrderKey, BrokerOrder>)
    requires Follows(db, after, orders)
    ensures after.baseline == db.baseline
  {
  }

  lemma ClaimKeepsBaseline(db: Tables, lease: ExecutionLease, latest: Option<Digest>, at: Time, orders: map<ClientOrderKey, BrokerOrder>)
    requires StatusesBacked(db, orders)
    ensures ClaimNext(db, lease, latest, at).db.baseline == db.baseline
  {
    hide StatusesBacked, ClaimNext, Follows;
    ClaimFollows(db, lease, latest, at, orders);
    FollowsBaseline(db, ClaimNext(db, lease, latest, at).db, orders);
  }

  lemma EventKeepsBaseline(s: System, startingCash: Money, e: BrokerEvent)
    requires SystemInv(s, startingCash) && e in s.broker.events
    ensures Ingest(s.db, e).db.baseline == s.db.baseline
  {
    hide StoreInv, BrokerInv, StatusesBacked, Ingest, EventSet, WorkersSound, TokensOrdered, SightsSound;
    IngestNext(s.db, s.broker, startingCash, e);
  }

  lemma AnswerKeepsBaseline(s: System, startingCash: Money, w: Name)
    requires SystemInv(s, startingCash) && w in s.workers
    ensures AfterIngest(s, w).db.baseline == s.db.baseline
  {
    hide SystemInv, Ingest;
    var phase := s.workers[w].phase;
    if (phase.SubmitAnswered? || phase.CancelAnswered?) && phase.answer != [] {
      WorkerIsSound(s, startingCash, w);
      EventKeepsBaseline(s, startingCash, phase.answer[0]);
    }
  }

  lemma FinishKeepsBaseline(s: System, startingCash: Money, w: Name, reason: Name)
    requires SystemInv(s, startingCash) && w in s.workers
    ensures AfterFinish(s, w, reason).db.baseline == s.db.baseline
  {
    hide SystemInv, MarkDelivered, MarkSubmissionUnknown, MarkCancelDelivered, MarkCancelUnknown;
    match s.workers[w].phase
    case SubmitAnswered(intent, _) => MarkDeliveredWrites(s.db, intent.id);
    case SubmitDropped(intent) => MarkUnknownWrites(s.db, intent.id, reason);
    case CancelAnswered(intent, _) => MarkCancelDeliveredWrites(s.db, intent.Key());
    case CancelDropped(intent) => MarkCancelUnknownWrites(s.db, intent.Key(), reason);
    case _ =>
  }

  lemma StoreStepKeepsBaseline(s: System, startingCash: Money, op: StoreOp)
    requires SystemInv(s, startingCash)
    ensures AfterStore(s, op).db.baseline == s.db.baseline
  {
    hide SystemInv, StoreInv, BrokerInv, InStep, StatusesBacked, ApplyOp, Follows, Unguarded;
    BrokerOf(s, startingCash);
    if Unguarded(op) {
      UnguardedFollows(s.db, op, s.broker.orders);
      FollowsBaseline(s.db, ApplyOp(s.db, op), s.broker.orders);
    }
  }

  lemma ResolveKeepsBaseline(s: System, startingCash: Money, key: ClientOrderKey)
    requires SystemInv(s, startingCash)
    ensures AfterResolve(s, key).db.baseline == s.db.baseline
  {
    hide SystemInv, StoreInv, BrokerInv, InStep, StatusesBacked, ResolveUnknown, Follows;
    BrokerOf(s, startingCash);
    var orders := s.broker.orders;
    if key in orders {
      ResolveFollows(s.db, key, orders[key].orderId, orders);
      FollowsBaseline(s.db, ResolveUnknown(s.db, key, orders[key].orderId), orders);
    }
  }

  predicate LeavesStore(move: Label) {
    || move.TakeSnapshot? || move.QueueScenario? || move.MarketFill? || move.MarketCommission? || move.StartWorker? || move.CrashWorker?
  }

  lemma StoreLeftAlone(s: System, move: Label)
    requires LeavesStore(move)
    ensures Step(s, move).db == s.db
  {
    hide EnqueueScenario, FillAt, ChargeCommission, AdvanceFence;
  }

  /** Nothing else touches it. */
  lemma OthersKeepBaseline(s: System, startingCash: Money, move: Label)
    requires SystemInv(s, startingCash) && !TakesBaseline(move)
    ensures Step(s, move).db.baseline == s.db.baseline
  {
    if LeavesStore(move) {
      hide Step, SystemInv;
      StoreLeftAlone(s, move);
    } else {
      hide SystemInv, AfterWorker, AfterDelivery, AfterStore, AfterResolve;
      match move
      case StoreStep(op) => StoreStepKeepsBaseline(s, startingCash, op);
      case DeliverEvent(index) => DeliveryKeepsBaseline(s, startingCash, index);
      case ResolveAtBroker(key) => ResolveKeepsBaseline(s, startingCash, key);
      case StartRun(_) =>
      case RecordRun(_, _) =>
      case WorkerClaim(w, _, _) => if w in s.workers { WorkerKeepsBaseline(s, startingCash, move, w); }
      case WorkerClaimCancel(w, _) => if w in s.workers { WorkerKeepsBaseline(s, startingCash, move, w); }
      case WorkerValidate(w, _) => if w in s.workers { WorkerKeepsBaseline(s, startingCash, move, w); }
      case WorkerSend(w, _) => if w in s.workers { WorkerKeepsBaseline(s, startingCash, move, w); }
      case WorkerIngest(w) => if w in s.workers { WorkerKeepsBaseline(s, startingCash, move, w); }
      case WorkerFinish(w, _) => if w in s.workers { WorkerKeepsBaseline(s, startingCash, move, w); }
    }
  }

  lemma DeliveryKeepsBaseline(s: System, startingCash: Money, index: nat)
    requires SystemInv(s, startingCash)
    ensures AfterDelivery(s, index).db.baseline == s.db.baseline
  {
    hide SystemInv, Ingest;
    if index < |s.broker.events| { EventKeepsBaseline(s, startingCash, s.broker.events[index]); }
  }

  /* ---------- How a baseline drifts ---------- */

  /** What moved between a snapshot and the events the store had applied when this step took the baseline. A
      whole run ingests the events of its snapshot first; a single baseline transaction does not. */
  ghost function MovedSince(s: System, move: Label): int {
    match move
    case TakeBaseline(sight) =>
      if InSight(s, sight) then CashFlow(EventSet(s.held[sight].broker.events)) - CashFlow(s.db.applied) else 0
    case RunReconciliation(sight, _) =>
      if InSight(s, sight) then
        CashFlow(EventSet(s.held[sight].broker.events)) - CashFlow(s.db.applied + EventSet(s.held[sight].broker.events))
      else 0
    case _ => 0
  }

  lemma TakingDrifts(s: System, startingCash: Money, sight: nat)
    requires SystemInv(s, startingCash) && InSight(s, sight)
    ensures var after := AfterBaseline(s, sight).db;
            if s.db.baseline.Some? then after.baseline == s.db.baseline
            else after.baseline.Some? && Drift(after, startingCash) == MovedSince(s, TakeBaseline(sight))
  {
    hide SystemInv, StoreInv, BrokerInv, InStep, StatusesBacked, CashFlow, EventSet, Snapshot, Earlier;
    BrokerOf(s, startingCash);
    SightOf(s, startingCash, sight);
    var h := s.held[sight];
    if s.db.baseline.None? { BaselineDrifts(s.db, h.broker, startingCash, h.asOf); }
  }

  lemma RunningDrifts(s: System, startingCash: Money, sight: nat, at: Time)
    requires SystemInv(s, startingCash) && InSight(s, sight)
    ensures var after := AfterReconcile(s, sight, at).db;
            || after.baseline == s.db.baseline
            || (s.db.baseline.None? && after.baseline.Some? && Drift(after, startingCash) == MovedSince(s, RunReconciliation(sight, at)))
  {
    hide SystemInv, StoreInv, InStep, StatusesBacked, CashFlow, EventSet, Snapshot, Earlier, Reconcile;
    hide KeysListed, OrdersMatch, SequencesIncrease, PositionBook;
    BrokerOf(s, startingCash);
    SightOf(s, startingCash, sight);
    var h := s.held[sight];
    ReconcileKeepsStep(s.db, s.broker, h.broker, startingCash, h.asOf, at);
  }

  /** Each step keeps the baseline, or takes the first one and misjudges by exactly what moved since. */
  lemma StepDrifts(s: System, startingCash: Money, move: Label)
    requires SystemInv(s, startingCash)
    ensures var after := Step(s, move).db;
            || after.baseline == s.db.baseline
            || (s.db.baseline.None? && after.baseline.Some? && Drift(after, startingCash) == MovedSince(s, move))
  {
    hide SystemInv, AfterBaseline, AfterReconcile, Drift, MovedSince;
    match move
    case TakeBaseline(sight) => if InSight(s, sight) { TakingDrifts(s, startingCash, sight); } else { NothingHeld(s, move); }
    case RunReconciliation(sight, at) => if InSight(s, sight) { RunningDrifts(s, startingCash, sight, at); } else { NothingHeld(s, move); }
    case _ => OthersKeepBaseline(s, startingCash, move);
  }

  lemma NothingHeld(s: System, move: Label)
    requires TakesBaseline(move) && !InSight(s, move.sight)
    ensures Step(s, move) == s
  {
    hide Reconcile, SetBaseline, Snapshot, SnapshotOf;
  }

  lemma {:induction false} RunKeepsBaseline(startingCash: Money, before: seq<Label>, after: seq<Label>)
    requires Run(NewSystem(startingCash), before).db.baseline.Some?
    ensures Run(NewSystem(startingCash), before + after).db.baseline == Run(NewSystem(startingCash), before).db.baseline
    decreases |after|
  {
    hide Step, SystemInv, NewSystem;
    if after == [] {
      assert before + after == before;
    } else {
      var n := |after| - 1;
      var all := before + after;
      RunKeepsBaseline(startingCash, before, after[..n]);
      assert all[..|all| - 1] == before + after[..n] && all[|all| - 1] == after[n];
      RunKeeps(startingCash, before + after[..n]);
      StepDrifts(Run(NewSystem(startingCash), before + after[..n]), startingCash, after[n]);
    }
  }

  /** A cash mismatch is reported exactly when the drift is more than a cent. */
  lemma CashIsReported(b: Broker, drift: int)
    ensures var found := ReportOf(b, drift).discrepancies;
            && (Abs(drift) <= CENT <==> forall d :: d in found ==> !d.CashMismatch?)
            && (Abs(drift) > CENT ==> CashMismatch(USD, b.cash + drift, b.cash) in found)
  {
    hide ProtectedIn, Uncovered;
    if Abs(drift) > CENT { assert CashMismatch(USD, b.cash + drift, b.cash) in ReportOf(b, drift).discrepancies; }
  }

  /** The race, exactly. Whichever step of a run took the first baseline, however much happened afterwards: a later
      reconciliation of the current broker that does not raise finds a cash mismatch, of exactly what had moved between
      the snapshot and the events applied by then, if and only if that is more than a cent; and it converges if and
      only if it is not and no buy order is short of protection. */
  lemma RaceExactly(startingCash: Money, before: seq<Label>, move: Label, after: seq<Label>, asOf: Time, at: Time)
    requires Run(NewSystem(startingCash), before).db.baseline.None?
    requires Run(NewSystem(startingCash), before + [move]).db.baseline.Some?
    ensures var t := Run(NewSystem(startingCash), before + [move] + after);
            var moved := MovedSince(Run(NewSystem(startingCash), before), move);
            && Drift(t.db, startingCash) == moved && BrokerListed(t.broker)
            && var r := Reconcile(t.db, Snapshot(t.broker, asOf), at);
            r.Ok? ==>
              && r.value.1 == ReportOf(t.broker, moved)
              && (r.value.1.status == Converged <==> Abs(moved) <= CENT && !Uncovered(t.broker.orders))
              && (Abs(moved) <= CENT <==> forall d :: d in r.value.1.discrepancies ==> !d.CashMismatch?)
              && (Abs(moved) > CENT ==> CashMismatch(USD, t.broker.cash + moved, t.broker.cash) in r.value.1.discrepancies)
  {
    hide Step, SystemInv, MovedSince, Reconcile, Snapshot, Raises, Agreement, Settled, NewSystem, Uncovered, ReportOf;
    var here := before + [move];
    assert here[..|here| - 1] == before && here[|here| - 1] == move;
    RunKeeps(startingCash, before);
    StepDrifts(Run(NewSystem(startingCash), before), startingCash, move);
    RunKeepsBaseline(startingCash, here, after);
    hide Run;
    ConvergesAfterAnyRun(startingCash, here + after, asOf, at);
    CashIsReported(Run(NewSystem(startingCash), here + after).broker, MovedSince(Run(NewSystem(startingCash), before), move));
  }

  /** The snapshot was as new as everything the store had applied when this step took a baseline from it. */
  ghost predicate Timely(s: System, move: Label) {
    match move
    case TakeBaseline(sight) => InSight(s, sight) ==> s.db.applied == EventSet(s.held[sight].broker.events)
    case RunReconciliation(sight, _) => InSight(s, sight) ==> s.db.applied <= EventSet(s.held[sight].broker.events)
    case _ => true
  }

  lemma TimelyMovesNothing(s: System, move: Label)
    requires Timely(s, move)
    ensures MovedSince(s, move) == 0
  {
    hide CashFlow;
    if move.RunReconciliation? && InSight(s, move.sight) {
      var events := EventSet(s.held[move.sight].broker.events);
      assert s.db.applied + events == events;
    }
  }

  /** Over runs without the race the baseline is right to the unit. */
  lemma {:induction false} TimelyRunsNeverDrift(startingCash: Money, moves: seq<Label>)
    requires forall i :: 0 <= i < |moves| ==> Timely(Run(NewSystem(startingCash), moves[..i]), moves[i])
    ensures Drift(Run(NewSystem(startingCash), moves).db, startingCash) == 0
  {
    if moves != [] {
      hide Step, SystemInv, MovedSince, Timely, NewSystem, Drift;
      var n := |moves| - 1;
      var rest := moves[..n];
      forall i | 0 <= i < |rest|
        ensures Timely(Run(NewSystem(startingCash), rest[..i]), rest[i])
      {
        assert rest[..i] == moves[..i];
      }
      TimelyRunsNeverDrift(startingCash, rest);
      RunKeeps(startingCash, rest);
      TimelyMovesNothing(Run(NewSystem(startingCash), rest), moves[n]);
      StepDrifts(Run(NewSystem(startingCash), rest), startingCash, moves[n]);
      DriftReadsBaseline(Run(NewSystem(startingCash), rest).db, Run(NewSystem(startingCash), moves).db, startingCash);
    } else {
      assert Run(NewSystem(startingCash), moves) == NewSystem(startingCash);
    }
  }

  lemma DriftReadsBaseline(db: Tables, after: Tables, startingCash: Money)
    ensures after.baseline == db.baseline ==> Drift(after, startingCash) == Drift(db, startingCash)
  {
  }
}
