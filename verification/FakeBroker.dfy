/** The persistent fake broker as a class: every method is one transaction, rolled back when it raises. */
module FakeBroker {
  import opened BrokerModel
  import opened ControlModels
  import opened ControlTables
  import opened Ledger

  class DurableFakeBroker {
    var cash: Money
    var highestToken: nat
    var nextOrderId: nat
    var nextSequence: nat
    var orders: map<ClientOrderKey, BrokerOrder>
    var orderKeys: seq<ClientOrderKey>
    var events: seq<BrokerEvent>
    var positions: map<Instrument, int>
    var scenarios: seq<Scenario>

    function State(): Broker
      reads this
    {
      Broker(cash, highestToken, nextOrderId, nextSequence, orders, orderKeys, events, positions, scenarios)
    }

    constructor (startingCash: Money)
      ensures State() == NewBroker(startingCash) && BrokerInv(State(), startingCash)
    {
      cash, highestToken, nextOrderId, nextSequence := startingCash, 0, 1, 1;
      orders, orderKeys, events, positions, scenarios := map[], [], [], map[], [];
      new;
      NewBrokerInv(startingCash);
    }

    method Enqueue(queued: seq<Scenario>)
      modifies this`scenarios
      ensures scenarios == old(scenarios) + queued
    {
      scenarios := scenarios + queued;
    }

    method PublishFence(token: nat) returns (r: Result<()>)
      modifies this`highestToken
      ensures Reply(State(), r) == AdvanceFence(old(State()), token)
    {
      if token < highestToken { return Err(StaleFencingToken); }
      highestToken := token;
      r := Ok(());
    }

    method TakeScenario() returns (scenario: Scenario)
      modifies this`scenarios
      ensures scenario == NextScenario(old(State())) && State() == PopScenario(old(State()))
    {
      if scenarios == [] { return AcceptScenario; }
      scenario := scenarios[0];
      scenarios := scenarios[1..];
    }

    /** Appends the next event to the log. */
    method EmitEvent(k: ClientOrderKey, orderId: nat, kind: BrokerEventType, quantity: nat, price: Option<Price>, commission: nat, at: Time)
      returns (event: BrokerEvent)
      modifies this`events, this`nextSequence
      ensures event == NextEvent(old(State()), k, orderId, kind, quantity, price, commission, at)
      ensures State() == Emit(old(State()), event)
    {
      event := BrokerEvent(EventId(orderId, k, kind, nextSequence, quantity, price, commission), at, at);
      events := events + [event];
      nextSequence := nextSequence + 1;
    }

    /** Fills an open order, updating its row, the position and the cash. */
    method FillOpenOrder(k: ClientOrderKey, quantity: int, price: Price, at: Time) returns (r: Result<BrokerEvent>)
      requires k in orders
      modifies this`orders, this`positions, this`cash, this`events, this`nextSequence
      ensures Reply(State(), r) == FillOrder(old(State()), k, quantity, price, at)
    {
      var order := orders[k];
      var actual := Min(quantity, order.intent.Quantity() - order.filled);
      if actual <= 0 { return Err(AlreadyFilled); }
      var total := order.filled + actual;
      var complete := total == order.intent.Quantity();
      orders := orders[k := order.(filled := total, status := if complete then OrderFilled else OrderPartiallyFilled)];
      var signed := if k.side == Buy then actual else -actual;
      positions := positions[k.instrument := (if k.instrument in positions then positions[k.instrument] else 0) + signed];
      cash := cash - (if k.side == Buy then price * actual else -(price * actual));
      var event := EmitEvent(k, order.orderId, if complete then Fill else PartialFill, actual, Some(price), 0, at);
      r := Ok(event);
    }

    /** All events of one order, in the order of the log. */
    method EventsOf(k: ClientOrderKey) returns (found: seq<BrokerEvent>)
      ensures found == EventsFor(events, k)
    {
      found := [];
      for i := 0 to |events|
        invariant found == EventsFor(events[..i], k)
      {
        assert events[..i + 1][..i] == events[..i];
        if events[i].Key() == k { found := found + [events[i]]; }
      }
      assert events[..|events|] == events;
    }

    /** Inserts the order row of an intent that has none yet. */
    method InsertOrder(intent: ExecutionIntent, scenario: Scenario)
      modifies this`nextOrderId, this`orders, this`orderKeys
      ensures State() == AcceptOrder(old(State()), intent, scenario)
    {
      var protection := if scenario == MissingProtection then 0 else intent.Quantity();
      orders := orders[intent.Key() := BrokerOrder(nextOrderId, intent, OrderAccepted, 0, false, protection)];
      orderKeys := orderKeys + [intent.Key()];
      nextOrderId := nextOrderId + 1;
    }

    /** Idempotent by client order key; the next scenario decides how a new order is answered. */
    method SubmitIntent(intent: ExecutionIntent, token: nat, at: Time) returns (r: Result<seq<BrokerEvent>>)
      modifies this
      ensures r == Submit(old(State()), intent, token, at).result
      ensures State() == Submit(old(State()), intent, token, at).broker
    {
      hide AcceptOrder, FillOrder, EventsFor, NextEvent, PopScenario, Emit;
      ghost var before := State();
      if token < highestToken { return Err(StaleFencingToken); }
      var k := intent.Key();
      if k in orders {
        highestToken := token;
        var prior := EventsOf(k);
        return Ok(prior);
      }
      SubmitShape(before, intent, token, at);
      highestToken := token;
      var orderId := nextOrderId;
      var scenario := TakeScenario();
      PopKeeps(before.(highestToken := token));
      AcceptAdds(State(), intent, scenario);
      InsertOrder(intent, scenario);
      if scenario == RejectScenario {
        EmitKeeps(State());
        var rejected := EmitEvent(k, orderId, Reject, 0, None, 0, at);
        orders := orders[k := orders[k].(status := OrderRejected)];
        return Ok([rejected]);
      }
      EmitKeeps(State());
      var ack := EmitEvent(k, orderId, Ack, 0, None, 0, at);
      if scenario == AcceptDropResponse {
        orders := orders[k := orders[k].(responseDropped := true)];
        return Err(ResponseDropped);
      }
      if scenario == DuplicateAck { return Ok([ack, ack]); }
      if scenario == PartialFillScenario {
        var filled := FillOpenOrder(k, Max(1, k.quantity / 2), k.limitPrice, at);
        return Ok([ack, filled.value]);
      }
      r := Ok([ack]);
    }

    method FillOrderAt(k: ClientOrderKey, quantity: int, price: Price, at: Time) returns (r: Result<BrokerEvent>)
      modifies this`orders, this`positions, this`cash, this`events, this`nextSequence
      ensures Reply(State(), r) == FillAt(old(State()), k, quantity, price, at)
    {
      if k !in orders { return Err(UnknownOrder); }
      r := FillOpenOrder(k, quantity, price, at);
    }

    method ChargeOrder(k: ClientOrderKey, amount: int, at: Time) returns (r: Result<BrokerEvent>)
      modifies this`cash, this`events, this`nextSequence
      ensures Reply(State(), r) == ChargeCommission(old(State()), k, amount, at)
    {
      if amount < 0 { return Err(NegativeCommission); }
      if k !in orders { return Err(UnknownOrder); }
      var event := EmitEvent(k, orders[k].orderId, Commission, 0, None, amount, at);
      cash := cash - amount;
      r := Ok(event);
    }

    /** Cancels what is not filled yet; a late fill may come first, and the response may be lost. */
    method CancelOrder(k: ClientOrderKey, token: nat, fillFirst: int, at: Time) returns (r: Result<seq<BrokerEvent>>)
      modifies this
      ensures Reply(State(), r) == Cancel(old(State()), k, token, fillFirst, at)
    {
      hide FillOrder, NextEvent, PopScenario, Emit;
      ghost var before := State();
      if token < highestToken { return Err(StaleFencingToken); }
      if k !in orders { return Err(UnknownOrder); }
      highestToken := token;
      var orderId := orders[k].orderId;
      var scenario := TakeScenario();
      PopKeeps(before.(highestToken := token));
      var emitted: seq<BrokerEvent> := [];
      if fillFirst > 0 && orders[k].filled < orders[k].intent.Quantity() {
        FillKeepsOrder(State(), k, fillFirst, k.limitPrice, at);
        var filled := FillOpenOrder(k, fillFirst, k.limitPrice, at);
        emitted := [filled.value];
      }
      if orders[k].filled < orders[k].intent.Quantity() {
        EmitKeeps(State());
        var cancelled := EmitEvent(k, orderId, CancelAck, 0, None, 0, at);
        emitted := emitted + [cancelled];
        orders := orders[k := orders[k].(status := OrderCancelled)];
      }
      if scenario == CancelDropResponse { return Err(ResponseDropped); }
      r := Ok(emitted);
    }

    /* ---------- Snapshots ---------- */

    method ListOrders() returns (truths: seq<BrokerOrderTruth>)
      requires forall k :: k in orderKeys ==> k in orders
      ensures truths == OrderTruths(orders, orderKeys)
    {
      truths := [];
      for i := 0 to |orderKeys|
        invariant truths == OrderTruths(orders, orderKeys[..i])
      {
        var k := orderKeys[i];
        var order := orders[k];
        truths := truths + [BrokerOrderTruth(order.orderId, k, k.instrument, k.side, k.quantity, order.filled, Min(order.protection, order.filled))];
      }
      assert orderKeys[..|orderKeys|] == orderKeys;
    }

    method ListProtections() returns (protections: map<Instrument, int>)
      requires forall k :: k in orderKeys ==> k in orders
      ensures protections == Protections(orders, orderKeys)
    {
      protections := map[];
      for i := 0 to |orderKeys|
        invariant protections == Protections(orders, orderKeys[..i])
      {
        var k := orderKeys[i];
        assert orderKeys[..i + 1][..i] == orderKeys[..i];
        if k.side == Buy && orders[k].filled > 0 {
          var covered := (if k.instrument in protections then protections[k.instrument] else 0) + Min(orders[k].protection, orders[k].filled);
          protections := protections[k.instrument := covered];
        }
      }
      assert orderKeys[..|orderKeys|] == orderKeys;
    }

    method ListProtectionOrders() returns (children: seq<BrokerProtectionTruth>)
      requires forall k :: k in orderKeys ==> k in orders
      ensures children == ProtectionOrders(orders, orderKeys)
    {
      children := [];
      for i := 0 to |orderKeys|
        invariant children == ProtectionOrders(orders, orderKeys[..i])
      {
        var k := orderKeys[i];
        assert orderKeys[..i + 1][..i] == orderKeys[..i];
        if orders[k].filled > 0 && orders[k].protection > 0 {
          var quantity := Min(orders[k].protection, orders[k].filled);
          children := children + [BrokerProtectionTruth(k, Stop, quantity, true), BrokerProtectionTruth(k, Target, quantity, true)];
        }
      }
      assert orderKeys[..|orderKeys|] == orderKeys;
    }

    method TakeSnapshot(at: Time) returns (snapshot: BrokerSnapshot)
      requires forall k :: k in orderKeys ==> k in orders
      ensures snapshot == Snapshot(State(), at)
    {
      var truths := ListOrders();
      var protections := ListProtections();
      var children := ListProtectionOrders();
      var balances: map<Currency, Money> := map[];
      balances := balances[USD := cash];
      snapshot := BrokerSnapshot(
        at, true, 0, cash, Some(cash), Some(cash), Some(0), USD, balances,
        truths, positions, protections, events, children);
    }
  }

  /** Filling an order that has something left succeeds and leaves the order in place. */
  lemma FillKeepsOrder(b: Broker, k: ClientOrderKey, quantity: int, price: Price, at: Time)
    requires k in b.orders && quantity > 0 && b.orders[k].filled < b.orders[k].intent.Quantity()
    ensures var filled := FillOrder(b, k, quantity, price, at);
            && filled.result.Ok? && k in filled.broker.orders && filled.broker.orders[k].intent == b.orders[k].intent
            && filled.broker.orders[k].orderId == b.orders[k].orderId && filled.broker.highestToken == b.highestToken
  {
  }

  lemma PopKeeps(b: Broker)
    ensures var after := PopScenario(b); after == b.(scenarios := after.scenarios)
  {
  }

  lemma EmitKeeps(b: Broker)
    ensures forall event :: Emit(b, event) == b.(events := b.events + [event], nextSequence := b.nextSequence + 1)
  {
  }

  lemma AcceptAdds(b: Broker, intent: ExecutionIntent, scenario: Scenario)
    ensures var after := AcceptOrder(b, intent, scenario);
            && intent.Key() in after.orders && after.orders[intent.Key()].filled == 0 && after.orders[intent.Key()].intent == intent
            && after.highestToken == b.highestToken
  {
  }

  /** A fresh order always has something left to fill. */
  lemma SubmitShape(b: Broker, intent: ExecutionIntent, token: nat, at: Time)
    requires token >= b.highestToken && intent.Key() !in b.orders
    ensures var k := intent.Key();
            var placed := AcceptOrder(PopScenario(b.(highestToken := token)), intent, NextScenario(b));
            var ack := NextEvent(placed, k, b.nextOrderId, Ack, 0, None, 0, at);
            && k in Emit(placed, ack).orders
            && FillOrder(Emit(placed, ack), k, Max(1, k.quantity / 2), k.limitPrice, at).result.Ok?
  {
  }
}
