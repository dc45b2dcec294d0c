/** What the fake broker answers to every call and what it keeps of it, for every state of the broker and every scenario. */
module BrokerLaws {
  import opened BrokerModel
  import opened ControlModels
  import opened ControlTables
  import opened Ledger
  import opened Sums

  /** What is left of an order. */
  function Left(order: BrokerOrder): int { order.intent.id.key.quantity - order.filled }

  /** An event that names order `orderId` and takes the next sequence number of the broker. */
  function Event(
    b: Broker, orderId: nat, k: ClientOrderKey, kind: BrokerEventType, quantity: nat, price: Option<Price>, commission: nat, at: Time)
    : BrokerEvent
  {
    BrokerEvent(EventId(orderId, k, kind, b.nextSequence, quantity, price, commission), at, at)
  }

  /** The broker after a fill of a positive quantity: the log, the order, the position and the cash move together. */
  predicate Fills(after: Broker, b: Broker, k: ClientOrderKey, quantity: nat, price: Price, at: Time)
    requires k in b.orders
  {
    var order := b.orders[k];
    var ends := quantity == Left(order);
    && after.events == b.events + [Event(b, order.orderId, k, if ends then Fill else PartialFill, quantity, Some(price), 0, at)]
    && after.nextSequence == b.nextSequence + 1
    && after.orders == b.orders[k := order.(
         filled := order.filled + quantity, status := if ends then OrderFilled else OrderPartiallyFilled)]
    && after.positions == b.positions[k.instrument :=
         (if k.instrument in b.positions then b.positions[k.instrument] else 0) + if k.side == Buy then quantity else -(quantity as int)]
    && after.cash == (if k.side == Buy then b.cash - price * quantity else b.cash + price * quantity)
    && after.highestToken == b.highestToken && after.nextOrderId == b.nextOrderId
    && after.orderKeys == b.orderKeys && after.scenarios == b.scenarios
  }

  /** A fill, exactly: refused when nothing is asked or left, and otherwise for the smaller of the two. */
  lemma FillExactly(b: Broker, k: ClientOrderKey, quantity: int, price: Price, at: Time)
    requires k in b.orders
    ensures var r, left := FillOrder(b, k, quantity, price, at), Left(b.orders[k]);
            && (quantity <= 0 || left <= 0 <==> r.result.Err?) && (r.result.Err? ==> r == Reply(b, Err(AlreadyFilled)))
            && (quantity > 0 && left > 0 ==>
                  && Fills(r.broker, b, k, if quantity <= left then quantity else left, price, at)
                  && r.result == Ok(r.broker.events[|b.events|]))
  {
  }

  lemma FillAtExactly(b: Broker, k: ClientOrderKey, quantity: int, price: Price, at: Time)
    ensures var r := FillAt(b, k, quantity, price, at);
            && (r == Reply(b, Err(UnknownOrder)) <==> k !in b.orders)
            && (k in b.orders && quantity > 0 && Left(b.orders[k]) > 0 ==>
                  Fills(r.broker, b, k, if quantity <= Left(b.orders[k]) then quantity else Left(b.orders[k]), price, at))
  {
  }

  /** The events of one order, exactly: those of the log that name it, in their order. */
  lemma {:induction false} EventsForExactly(b: Broker, events: seq<BrokerEvent>, k: ClientOrderKey)
    requires SequencesIncrease(events, b.nextSequence)
    ensures forall e :: e in EventsFor(events, k) <==> e in events && e.Key() == k
    ensures SequencesIncrease(EventsFor(events, k), b.nextSequence)
  {
    if events != [] {
      var before, last := events[..|events| - 1], events[|events| - 1];
      EventsForExactly(b, before, k);
      assert events == before + [last];
      forall e | e in before
        ensures e.id.sequence < last.id.sequence
      {
      }
    }
  }

  /** The scenario that decides the next call, and what remains of the queue. */
  function Due(b: Broker): Scenario { if b.scenarios == [] then AcceptScenario else b.scenarios[0] }

  function Later(b: Broker): seq<Scenario> { if b.scenarios == [] then [] else b.scenarios[1..] }

  /** A new order as the submission of its intent leaves it. */
  function Opened(b: Broker, intent: ExecutionIntent, status: OrderStatus, dropped: bool): BrokerOrder {
    BrokerOrder(b.nextOrderId, intent, status, 0, dropped, if Due(b) == MissingProtection then 0 else intent.id.key.quantity)
  }

  /** The broker after the first event of a new order. */
  function Answered(b: Broker, intent: ExecutionIntent, token: nat, order: BrokerOrder, kind: BrokerEventType, at: Time): Broker {
    b.(highestToken := token,
       nextOrderId := b.nextOrderId + 1,
       nextSequence := b.nextSequence + 1,
       orders := b.orders[intent.id.key := order],
       orderKeys := b.orderKeys + [intent.id.key],
       events := b.events + [Event(b, b.nextOrderId, intent.id.key, kind, 0, None, 0, at)],
       scenarios := Later(b))
  }

  /** A submission, exactly. An older token is refused; a repeated one is answered with the events there are and moves the
      fence alone; a new one opens an order and is answered as the next scenario says. */
  lemma SubmitExactly(b: Broker, intent: ExecutionIntent, token: nat, at: Time)
    ensures var r, k := Submit(b, intent, token, at), intent.id.key;
            var unseen := token >= b.highestToken && k !in b.orders;
            var ack := Event(b, b.nextOrderId, k, Ack, 0, None, 0, at);
            var reject := Event(b, b.nextOrderId, k, Reject, 0, None, 0, at);
            && (token < b.highestToken ==> r == Reply(b, Err(StaleFencingToken)))
            && (token >= b.highestToken && k in b.orders ==> r == Reply(b.(highestToken := token), Ok(EventsFor(b.events, k))))
            && (unseen && Due(b) == RejectScenario ==>
                  r == Reply(Answered(b, intent, token, Opened(b, intent, OrderRejected, false), Reject, at), Ok([reject])))
            && (unseen && Due(b) == AcceptDropResponse ==>
                  r == Reply(Answered(b, intent, token, Opened(b, intent, OrderAccepted, true), Ack, at), Err(ResponseDropped)))
            && (unseen && Due(b) == DuplicateAck ==>
                  r == Reply(Answered(b, intent, token, Opened(b, intent, OrderAccepted, false), Ack, at), Ok([ack, ack])))
            && (unseen && Due(b) in {AcceptScenario, MissingProtection, CancelDropResponse} ==>
                  r == Reply(Answered(b, intent, token, Opened(b, intent, OrderAccepted, false), Ack, at), Ok([ack])))
  {
    hide FillOrder, EventsFor;
    if token >= b.highestToken && intent.Key() !in b.orders {
      Rewritten(b.orders, intent.Key(), Opened(b, intent, OrderAccepted, false), Opened(b, intent, OrderRejected, false));
      Rewritten(b.orders, intent.Key(), Opened(b, intent, OrderAccepted, false), Opened(b, intent, OrderAccepted, true));
    }
  }

  lemma Rewritten(orders: map<ClientOrderKey, BrokerOrder>, k: ClientOrderKey, first: BrokerOrder, last: BrokerOrder)
    ensures orders[k := first][k := last] == orders[k := last]
  {
  }

  lemma Appended(events: seq<BrokerEvent>, e: BrokerEvent, f: BrokerEvent)
    ensures events[|events|..] == [] && (events + [e])[|events|..] == [e] == [] + [e]
    ensures (events + [e] + [f])[|events|..] == [e] + [f]
  {
  }

  /** A submission that is filled in part, exactly: half of the quantity, rounded down but at least one, at the limit price. */
  lemma PartialSubmitExactly(b: Broker, intent: ExecutionIntent, token: nat, at: Time)
    requires token >= b.highestToken && intent.Key() !in b.orders && Due(b) == PartialFillScenario
    ensures var r, k := Submit(b, intent, token, at), intent.id.key;
            var acked := Answered(b, intent, token, Opened(b, intent, OrderAccepted, false), Ack, at);
            var half := if k.quantity < 2 then 1 else k.quantity / 2;
            && (k.quantity == 0 ==> r == Reply(b, Err(AlreadyFilled)))
            && (k.quantity > 0 ==>
                  && Fills(r.broker, acked, k, half, k.limitPrice, at)
                  && r.result == Ok([acked.events[|b.events|], r.broker.events[|b.events| + 1]]))
  {
    var k := intent.Key();
    var acked := Answered(b, intent, token, Opened(b, intent, OrderAccepted, false), Ack, at);
    FillExactly(acked, k, Max(1, k.quantity / 2), k.limitPrice, at);
    hide FillOrder, Fills;
  }

  /** The broker a cancel works on. */
  function Fenced(b: Broker, token: nat): Broker { b.(highestToken := token, scenarios := Later(b)) }

  /** The end of a cancel: what is still open is cancelled and said so, and what is filled is left alone. */
  predicate Cancels(after: Broker, b: Broker, k: ClientOrderKey, at: Time)
    requires k in b.orders
  {
    if Left(b.orders[k]) > 0 then
      after == b.(
        events := b.events + [Event(b, b.orders[k].orderId, k, CancelAck, 0, None, 0, at)],
        nextSequence := b.nextSequence + 1,
        orders := b.orders[k := b.orders[k].(status := OrderCancelled)])
    else after == b
  }

  /** A cancel without a late fill, exactly. */
  lemma CancelExactly(b: Broker, k: ClientOrderKey, token: nat, fillFirst: int, at: Time)
    ensures var r := Cancel(b, k, token, fillFirst, at);
            && (token < b.highestToken ==> r == Reply(b, Err(StaleFencingToken)))
            && (token >= b.highestToken && k !in b.orders ==> r == Reply(b, Err(UnknownOrder)))
            && (token >= b.highestToken && k in b.orders && (fillFirst <= 0 || Left(b.orders[k]) <= 0) ==>
                  && Cancels(r.broker, Fenced(b, token), k, at)
                  && r.result == if Due(b) == CancelDropResponse then Err(ResponseDropped) else Ok(r.broker.events[|b.events|..]))
  {
    hide FillOrder;
    if token >= b.highestToken && k in b.orders {
      var cancelled := Event(b, b.orders[k].orderId, k, CancelAck, 0, None, 0, at);
      Appended(b.events, cancelled, cancelled);
    }
  }

  /** A cancel that a fill overtakes, exactly: the smaller of what is asked and left fills at the limit price, and the rest,
      if there is one, is cancelled. */
  lemma LateFillExactly(b: Broker, k: ClientOrderKey, token: nat, fillFirst: int, at: Time)
    requires token >= b.highestToken && k in b.orders && fillFirst > 0 && Left(b.orders[k]) > 0
    ensures var r, filled := Cancel(b, k, token, fillFirst, at), FillOrder(Fenced(b, token), k, fillFirst, k.limitPrice, at);
            && Fills(filled.broker, Fenced(b, token), k, if fillFirst <= Left(b.orders[k]) then fillFirst else Left(b.orders[k]), k.limitPrice, at)
            && Cancels(r.broker, filled.broker, k, at)
            && r.result == if Due(b) == CancelDropResponse then Err(ResponseDropped) else Ok(r.broker.events[|b.events|..])
  {
    FillExactly(Fenced(b, token), k, fillFirst, k.limitPrice, at);
    var filled := FillOrder(Fenced(b, token), k, fillFirst, k.limitPrice, at);
    Appended(b.events, filled.result.value, Event(filled.broker, b.orders[k].orderId, k, CancelAck, 0, None, 0, at));
    hide FillOrder;
  }

  /** A commission, exactly: a negative one and one of an unknown order are refused; any other is paid and logged. */
  lemma CommissionExactly(b: Broker, k: ClientOrderKey, amount: int, at: Time)
    ensures var r := ChargeCommission(b, k, amount, at);
            && (amount < 0 <==> r == Reply(b, Err(NegativeCommission)))
            && (amount >= 0 && k !in b.orders ==> r == Reply(b, Err(UnknownOrder)))
            && (amount >= 0 && k in b.orders ==>
                  var e := Event(b, b.orders[k].orderId, k, Commission, 0, None, amount, at);
                  r == Reply(b.(cash := b.cash - amount, events := b.events + [e], nextSequence := b.nextSequence + 1), Ok(e)))
  {
  }

  /** A snapshot, exactly: the cash four times, no accrual, every order once with what is filled and protected of it, the
      positions and the whole log. */
  lemma SnapshotExactly(b: Broker, at: Time)
    requires forall k :: k in b.orderKeys ==> k in b.orders
    ensures var s := Snapshot(b, at);
            && s.asOf == at && s.complete && s.cash == b.cash && s.settledCash == Some(b.cash) && s.buyingPower == Some(b.cash)
            && s.accruedCash == Some(0) && s.currencyBalances == map[s.baseCurrency := b.cash]
            && s.positions == b.positions && s.events == b.events && |s.orders| == |b.orderKeys|
            && forall i :: 0 <= i < |s.orders| ==>
                 var k, truth := b.orderKeys[i], s.orders[i];
                 var order := b.orders[k];
                 && truth.brokerOrderId == order.orderId && truth.key == k && truth.instrument == k.instrument
                 && truth.side == k.side && truth.quantity == k.quantity && truth.filled == order.filled
                 && truth.protection == if order.protection <= order.filled then order.protection else order.filled
  {
    hide ProtectionOrders, Protections;
  }
}
