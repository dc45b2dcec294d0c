/** Starting a reconciliation twice with the same times. */
module SecondStart {
  import opened BrokerModel
  import opened ControlModels
  import opened ControlTables
  import opened Convergence
  import opened ExecutionSystem
  import opened ReconciliationModel
  import opened SampleRuns
  import opened StoreInvariants
  import opened SystemInvariants
  import opened SystemTheorems

  /** A reconciliation that is started again with the same times raises: its run is already there. The first start
      of an open store does not. */
  lemma SecondStartRaises(startingCash: Money, moves: seq<Label>, asOf: Time, at: Time)
    ensures var s := Run(NewSystem(startingCash), moves);
            && BrokerListed(s.broker)
            && var r := Reconcile(s.db, Snapshot(s.broker, asOf), at);
            r.Ok? ==> Reconcile(r.value.0, Snapshot(s.broker, asOf), at).Err?
  {
    hide Run, SystemInv, InStep, Agreement, Settled, BlockedElsewhere, Reconcile, OpenRows, BrokerInv;
    hide StatusesBacked, StoreInv, Drift, Clean, ReportOf, Snapshot;
    var s := Run(NewSystem(startingCash), moves);
    RunKeeps(startingCash, moves);
    BrokerOf(s, startingCash);
    ReconcileExactly(s.db, s.broker, startingCash, asOf, at);
    var r := Reconcile(s.db, Snapshot(s.broker, asOf), at);
    if r.Ok? {
      assert RunId(asOf, at) in r.value.0.runs;
      ReconcileExactly(r.value.0, s.broker, startingCash, asOf, at);
    }
  }

  lemma FirstStartSucceeds(asOf: Time, at: Time)
    ensures var s := Run(NewSystem(CASH), Sending()); BrokerListed(s.broker) && Reconcile(s.db, Snapshot(s.broker, asOf), at).Ok?
  {
    assert SentBroker().orders.Keys == {KeyFor(1)};
    hide Run, Step, SentTables, Reconcile, Snapshot, Raises, Agreement, Settled, Sending;
    Sent();
    SentRow();
    NothingRaises(SentTables(), SentBroker(), CASH, asOf, at);
    ConvergesAfterAnyRun(CASH, Sending(), asOf, at);
  }
}
