/** The persistent fake broker: its state, what each of its transactions does, and its conservation laws. */
module BrokerModel {
  import opened ControlModels
  import opened ControlTables
  import opened Ledger
  import opened Sums

  datatype Scenario =
    | AcceptScenario | AcceptDropResponse | DuplicateAck | RejectScenario | PartialFillScenario
    | MissingProtection | CancelDropResponse

  datatype OrderStatus = OrderAccepted | OrderRejected | OrderPartiallyFilled | OrderFilled | OrderCancelled

  datatype BrokerOrder = BrokerOrder(
    orderId: nat, intent: ExecutionIntent, status: OrderStatus, filled: nat, responseDropped: bool, protection: nat)

  /** `orderKeys` is the rowid order of the order table. */
  datatype Broker = Broker(
    cash: Money,
    highestToken: nat,
    nextOrderId: nat,
    nextSequence: nat,
    orders: map<ClientOrderKey, BrokerOrder>,
    orderKeys: seq<ClientOrderKey>,
    events: seq<BrokerEvent>,
    positions: map<Instrument, int>,
    scenarios: seq<Scenario>)

  datatype Reply<+T> = Reply(broker: Broker, result: Result<T>)

  function NewBroker(startingCash: Money): Broker {
    Broker(startingCash, 0, 1, 1, map[], [], [], map[], [])
  }

  function EnqueueScenario(b: Broker, scenario: Scenario): Broker { b.(scenarios := b.scenarios + [scenario]) }

  function NextScenario(b: Broker): Scenario { if b.scenarios == [] then AcceptScenario else b.scenarios[0] }

  function PopScenario(b: Broker): Broker { if b.scenarios == [] then b else b.(scenarios := b.scenarios[1..]) }

  /** Accepts a token that is not older than the newest one published. */
  function AdvanceFence(b: Broker, token: nat): Reply<()> {
    if token < b.highestToken then Reply(b, Err(StaleFencingToken)) else Reply(b.(highestToken := token), Ok(()))
  }

  /** The event the broker emits next. */
  function NextEvent(
    b: Broker, k: ClientOrderKey, orderId: nat, kind: BrokerEventType, quantity: nat, price: Option<Price>, commission: nat, at: Time)
    : BrokerEvent
  {
    BrokerEvent(EventId(orderId, k, kind, b.nextSequence, quantity, price, commission), at, at)
  }

  function Emit(b: Broker, event: BrokerEvent): Broker {
    b.(events := b.events + [event], nextSequence := b.nextSequence + 1)
  }

  function Remaining(b: Broker, k: ClientOrderKey): int
    requires k in b.orders
  {
    b.orders[k].intent.Quantity() - b.orders[k].filled
  }

  /** Fills at most the remaining quantity of an order and books it. */
  function FillOrder(b: Broker, k: ClientOrderKey, quantity: int, price: Price, at: Time): Reply<BrokerEvent>
    requires k in b.orders
  {
    var order := b.orders[k];
    var actual := Min(quantity, Remaining(b, k));
    if actual <= 0 then Reply(b, Err(AlreadyFilled))
    else
      var total := order.filled + actual;
      var complete := total == order.intent.Quantity();
      var event := NextEvent(b, k, order.orderId, if complete then Fill else PartialFill, actual, Some(price), 0, at);
      Reply(
        Emit(b, event).(
          orders := b.orders[k := order.(filled := total, status := if complete then OrderFilled else OrderPartiallyFilled)],
          positions := b.positions[k.instrument := Lookup(b.positions, k.instrument, 0) + SignedQuantity(k.side, actual)],
          cash := b.cash - SignedQuantity(k.side, price * actual)),
        Ok(event))
  }

  function EventsFor(events: seq<BrokerEvent>, k: ClientOrderKey): seq<BrokerEvent> {
    if events == [] then []
    else EventsFor(events[..|events| - 1], k) + if events[|events| - 1].Key() == k then [events[|events| - 1]] else []
  }

  /** Opens the order of an intent that has none yet. */
  function AcceptOrder(b: Broker, intent: ExecutionIntent, scenario: Scenario): Broker {
    var protection := if scenario == MissingProtection then 0 else intent.Quantity();
    b.(
      nextOrderId := b.nextOrderId + 1,
      orders := b.orders[intent.Key() := BrokerOrder(b.nextOrderId, intent, OrderAccepted, 0, false, protection)],
      orderKeys := b.orderKeys + [intent.Key()])
  }

  /** Submitting is idempotent by client order key; the next scenario decides how a new order is answered. */
  function Submit(b: Broker, intent: ExecutionIntent, token: nat, at: Time): Reply<seq<BrokerEvent>> {
    var k := intent.Key();
    if token < b.highestToken then Reply(b, Err(StaleFencingToken))
    else if k in b.orders then Reply(b.(highestToken := token), Ok(EventsFor(b.events, k)))
    else
      var scenario := NextScenario(b);
      var placed := AcceptOrder(PopScenario(b.(highestToken := token)), intent, scenario);
      var orderId := b.nextOrderId;
      if scenario == RejectScenario then
        var event := NextEvent(placed, k, orderId, Reject, 0, None, 0, at);
        Reply(Emit(placed, event).(orders := placed.orders[k := placed.orders[k].(status := OrderRejected)]), Ok([event]))
      else
        var ack := NextEvent(placed, k, orderId, Ack, 0, None, 0, at);
        var acked := Emit(placed, ack);
        if scenario == AcceptDropResponse then
          Reply(acked.(orders := acked.orders[k := acked.orders[k].(responseDropped := true)]), Err(ResponseDropped))
        else if scenario == DuplicateAck then Reply(acked, Ok([ack, ack]))
        else if scenario == PartialFillScenario then
          var filled := FillOrder(acked, k, Max(1, k.quantity / 2), k.limitPrice, at);
          if filled.result.Ok? then Reply(filled.broker, Ok([ack, filled.result.value])) else Reply(b, Err(filled.result.error))
        else Reply(acked, Ok([ack]))
  }

  function FillAt(b: Broker, k: ClientOrderKey, quantity: int, price: Price, at: Time): Reply<BrokerEvent> {
    if k !in b.orders then Reply(b, Err(UnknownOrder)) else FillOrder(b, k, quantity, price, at)
  }

  /** Cancels what is not filled yet; a late fill may come first, and the response may be lost. */
  function Cancel(b: Broker, k: ClientOrderKey, token: nat, fillFirst: int, at: Time): Reply<seq<BrokerEvent>> {
    if token < b.highestToken then Reply(b, Err(StaleFencingToken))
    else if k !in b.orders then Reply(b, Err(UnknownOrder))
    else
      var scenario := NextScenario(b);
      var fenced := PopScenario(b.(highestToken := token));
      var filled :=
        if fillFirst > 0 && Remaining(b, k) > 0 then FillOrder(fenced, k, fillFirst, k.limitPrice, at) else Reply(fenced, Err(AlreadyFilled));
      var events := if filled.result.Ok? then [filled.result.value] else [];
      var b1 := filled.broker;
      var cancelled := NextEvent(b1, k, b.orders[k].orderId, CancelAck, 0, None, 0, at);
      var open := k in b1.orders && Remaining(b1, k) > 0;
      var b2 := if open then Emit(b1, cancelled).(orders := b1.orders[k := b1.orders[k].(status := OrderCancelled)]) else b1;
      if scenario == CancelDropResponse then Reply(b2, Err(ResponseDropped))
      else Reply(b2, Ok(if open then events + [cancelled] else events))
  }

  function ChargeCommission(b: Broker, k: ClientOrderKey, amount: int, at: Time): Reply<BrokerEvent> {
    if amount < 0 then Reply(b, Err(NegativeCommission))
    else if k !in b.orders then Reply(b, Err(UnknownOrder))
    else
      var event := NextEvent(b, k, b.orders[k].orderId, Commission, 0, None, amount, at);
      Reply(Emit(b, event).(cash := b.cash - amount), Ok(event))
  }

  /* ---------- Snapshots ---------- */

  function Covered(order: BrokerOrder): nat { Min(order.protection, order.filled) }

  function OrderTruth(k: ClientOrderKey, order: BrokerOrder): BrokerOrderTruth {
    BrokerOrderTruth(order.orderId, k, k.instrument, k.side, k.quantity, order.filled, Covered(order))
  }

  function OrderTruths(orders: map<ClientOrderKey, BrokerOrder>, keys: seq<ClientOrderKey>): seq<BrokerOrderTruth>
    requires forall k :: k in keys ==> k in orders
  {
    seq(|keys|, i requires 0 <= i < |keys| => OrderTruth(keys[i], orders[keys[i]]))
  }

  /** A filled and protected order has one stop and one target child. */
  function ProtectionOrders(orders: map<ClientOrderKey, BrokerOrder>, keys: seq<ClientOrderKey>): seq<BrokerProtectionTruth>
    requires forall k :: k in keys ==> k in orders
  {
    if keys == [] then []
    else
      var k := keys[|keys| - 1];
      var order := orders[k];
      ProtectionOrders(orders, keys[..|keys| - 1])
      + if order.filled > 0 && order.protection > 0
        then [BrokerProtectionTruth(k, Stop, Covered(order), true), BrokerProtectionTruth(k, Target, Covered(order), true)]
        else []
  }

  /** The protected quantity of long fills, per instrument. */
  function Protections(orders: map<ClientOrderKey, BrokerOrder>, keys: seq<ClientOrderKey>): map<Instrument, int>
    requires forall k :: k in keys ==> k in orders
  {
    if keys == [] then map[]
    else
      var k := keys[|keys| - 1];
      var before := Protections(orders, keys[..|keys| - 1]);
      if k.side == Buy && orders[k].filled > 0
      then before[k.instrument := Lookup(before, k.instrument, 0) + Covered(orders[k])]
      else before
  }

  const USD: Currency := 0

  function Snapshot(b: Broker, at: Time): BrokerSnapshot
    requires forall k :: k in b.orderKeys ==> k in b.orders
  {
    BrokerSnapshot(
      at, true, 0, b.cash, Some(b.cash), Some(b.cash), Some(0), USD, map[USD := b.cash],
      OrderTruths(b.orders, b.orderKeys), b.positions, Protections(b.orders, b.orderKeys), b.events,
      ProtectionOrders(b.orders, b.orderKeys))
  }

  /* ---------- Conservation ---------- */

  ghost function EventSet(events: seq<BrokerEvent>): set<BrokerEvent> { set e | e in events }

  /** An acceptance is the first answer to a new order: an acknowledgement or a rejection. */
  predicate IsAcceptance(e: BrokerEvent) { e.id.kind == Ack || e.id.kind == Reject }

  ghost function AcceptanceWeight(k: ClientOrderKey): BrokerEvent -> int {
    (e: BrokerEvent) => if e.Key() == k && IsAcceptance(e) then 1 else 0
  }

  /** How often orders with this key were opened. */
  ghost function Acceptances(events: set<BrokerEvent>, k: ClientOrderKey): int { Sum(events, AcceptanceWeight(k)) }

  /** A fill has a price and a positive quantity; every other event has neither. */
  predicate WellFormedEvent(e: BrokerEvent) {
    if e.IsFill() then e.Quantity() > 0 && e.id.fillPrice.Some? else e.Quantity() == 0
  }

  /** An order counts exactly the fills of its key, within its quantity, and was opened once. */
  ghost predicate OrderMatches(k: ClientOrderKey, order: BrokerOrder, events: set<BrokerEvent>) {
    && order.intent.Key() == k
    && order.filled == FilledQuantity(events, k) <= k.quantity
    && Acceptances(events, k) == 1
  }

  ghost predicate OrdersMatch(orders: map<ClientOrderKey, BrokerOrder>, events: set<BrokerEvent>) {
    && (forall k :: k in orders ==> OrderMatches(k, orders[k], events))
    && (forall e :: e in events ==> e.Key() in orders && WellFormedEvent(e))
  }

  predicate SequencesIncrease(events: seq<BrokerEvent>, nextSequence: nat) {
    && (forall i :: 0 <= i < |events| ==> events[i].id.sequence < nextSequence)
    && (forall i, j :: 0 <= i < j < |events| ==> events[i].id.sequence < events[j].id.sequence)
  }

  ghost predicate KeysListed(orders: map<ClientOrderKey, BrokerOrder>, keys: seq<ClientOrderKey>) {
    && (forall k :: k in keys <==> k in orders)
    && (forall i, j :: 0 <= i < j < |keys| ==> keys[i] != keys[j])
  }

  ghost predicate BooksBalance(cash: Money, positions: map<Instrument, int>, events: set<BrokerEvent>, startingCash: Money) {
    && cash == startingCash + CashFlow(events)
    && positions == PositionBook(events)
  }

  ghost predicate BrokerInv(b: Broker, startingCash: Money) {
    && KeysListed(b.orders, b.orderKeys)
    && SequencesIncrease(b.events, b.nextSequence)
    && OrdersMatch(b.orders, EventSet(b.events))
    && BooksBalance(b.cash, b.positions, EventSet(b.events), startingCash)
  }

  /** An event with the next sequence number is new. */
  lemma EmitIsNew(events: seq<BrokerEvent>, nextSequence: nat, e: BrokerEvent)
    requires SequencesIncrease(events, nextSequence) && e.id.sequence == nextSequence
    ensures e !in EventSet(events) && EventSet(events + [e]) == EventSet(events) + {e}
    ensures SequencesIncrease(events + [e], nextSequence + 1)
  {
  }

  lemma NewBrokerInv(startingCash: Money)
    ensures BrokerInv(NewBroker(startingCash), startingCash)
  {
    EmptyLedger();
    assert EventSet([]) == {};
  }

  /** A key without events has no fills and no acceptance. */
  lemma UnseenKey(events: set<BrokerEvent>, k: ClientOrderKey)
    requires forall e :: e in events ==> e.Key() != k
    ensures FilledQuantity(events, k) == 0 && Acceptances(events, k) == 0
  {
    SumZero(events, FilledWeight(k));
    SumZero(events, AcceptanceWeight(k));
  }

  /** One more event for one order; an acceptance opens it, any other event finds it open. */
  lemma OrdersStep(orders: map<ClientOrderKey, BrokerOrder>, events: set<BrokerEvent>, e: BrokerEvent, order: BrokerOrder)
    requires OrdersMatch(orders, events) && e !in events && WellFormedEvent(e)
    requires order.intent.Key() == e.Key()
    requires order.filled == (if e.Key() in orders then orders[e.Key()].filled else 0) + e.Quantity() <= e.Key().quantity
    requires IsAcceptance(e) <==> e.Key() !in orders
    ensures OrdersMatch(orders[e.Key() := order], events + {e})
  {
    hide Sum;
    var after := orders[e.Key() := order];
    if e.Key() !in orders {
      UnseenKey(events, e.Key());
    }
    forall k | k in after
      ensures OrderMatches(k, after[k], events + {e})
    {
      FilledInsert(events, e, k);
      SumInsert(events, AcceptanceWeight(k), e);
    }
  }

  lemma BooksStep(cash: Money, positions: map<Instrument, int>, events: set<BrokerEvent>, startingCash: Money, e: BrokerEvent)
    requires BooksBalance(cash, positions, events, startingCash) && e !in events
    ensures BooksBalance(cash + CashEffect(e), Booked(positions, e), events + {e}, startingCash)
  {
    CashInsert(events, e);
    BookInsert(events, e);
  }

  /** The broker after one more event e that leaves `order` behind. */
  function WithEvent(b: Broker, e: BrokerEvent, order: BrokerOrder): Broker {
    Emit(b, e).(
      orders := b.orders[e.Key() := order],
      cash := b.cash + CashEffect(e),
      positions := Booked(b.positions, e))
  }

  lemma EventKeepsInv(b: Broker, startingCash: Money, e: BrokerEvent, order: BrokerOrder)
    requires BrokerInv(b, startingCash) && e.id.sequence == b.nextSequence && e.Key() in b.orders
    requires order.intent.Key() == e.Key() && WellFormedEvent(e) && !IsAcceptance(e)
    requires order.filled == b.orders[e.Key()].filled + e.Quantity() <= e.Key().quantity
    ensures BrokerInv(WithEvent(b, e, order), startingCash)
  {
    hide OrdersMatch, BooksBalance;
    EmitIsNew(b.events, b.nextSequence, e);
    OrdersStep(b.orders, EventSet(b.events), e, order);
    BooksStep(b.cash, b.positions, EventSet(b.events), startingCash, e);
  }

  lemma FillKeepsInv(b: Broker, startingCash: Money, k: ClientOrderKey, quantity: int, price: Price, at: Time)
    requires BrokerInv(b, startingCash) && k in b.orders
    ensures BrokerInv(FillOrder(b, k, quantity, price, at).broker, startingCash)
  {
    hide BrokerInv;
    var r := FillOrder(b, k, quantity, price, at);
    if r.result.Ok? {
      var e := r.result.value;
      OrderBounds(b, startingCash, k);
      assert r.broker == WithEvent(b, e, r.broker.orders[k]) by {
        assert CashEffect(e) == -SignedQuantity(k.side, price * e.Quantity());
      }
      EventKeepsInv(b, startingCash, e, r.broker.orders[k]);
    }
  }

  /** Opening a new order and answering it with an acceptance keeps the books. */
  lemma AcceptKeepsInv(b: Broker, startingCash: Money, intent: ExecutionIntent, scenario: Scenario, e: BrokerEvent, order: BrokerOrder)
    requires BrokerInv(b, startingCash) && intent.Key() !in b.orders
    requires e.id.sequence == b.nextSequence && e.Key() == intent.Key() && IsAcceptance(e) && WellFormedEvent(e) && e.id.commission == 0
    requires order.intent == intent && order.filled == 0
    ensures BrokerInv(WithEvent(AcceptOrder(b, intent, scenario), e, order), startingCash)
  {
    hide OrdersMatch, BooksBalance;
    var placed := AcceptOrder(b, intent, scenario);
    var after := WithEvent(placed, e, order);
    assert after.orders == b.orders[e.Key() := order];
    EmitIsNew(b.events, b.nextSequence, e);
    OrdersStep(b.orders, EventSet(b.events), e, order);
    BooksStep(b.cash, b.positions, EventSet(b.events), startingCash, e);
  }

  lemma FencedKeepsInv(b: Broker, startingCash: Money, token: nat)
    requires BrokerInv(b, startingCash)
    ensures BrokerInv(b.(highestToken := token), startingCash) && BrokerInv(PopScenario(b.(highestToken := token)), startingCash)
  {
    hide KeysListed, SequencesIncrease, OrdersMatch, BooksBalance;
  }

  lemma SubmitKeepsInv(b: Broker, startingCash: Money, intent: ExecutionIntent, token: nat, at: Time)
    requires BrokerInv(b, startingCash)
    ensures BrokerInv(Submit(b, intent, token, at).broker, startingCash)
  {
    var k := intent.Key();
    hide BrokerInv;
    FencedKeepsInv(b, startingCash, token);
    if token >= b.highestToken && k !in b.orders {
      var scenario := NextScenario(b);
      var fenced := PopScenario(b.(highestToken := token));
      var placed := AcceptOrder(fenced, intent, scenario);
      var answer := if scenario == RejectScenario then Reject else Ack;
      var e := NextEvent(placed, k, b.nextOrderId, answer, 0, None, 0, at);
      var order := placed.orders[k].(
        status := if scenario == RejectScenario then OrderRejected else OrderAccepted, responseDropped := scenario == AcceptDropResponse);
      var after := WithEvent(placed, e, order);
      AcceptKeepsInv(fenced, startingCash, intent, scenario, e, order);
      assert scenario != RejectScenario && scenario != AcceptDropResponse ==> after == Emit(placed, e);
      if scenario == PartialFillScenario {
        FillKeepsInv(after, startingCash, k, Max(1, k.quantity / 2), k.limitPrice, at);
      }
    }
  }

  lemma CancelKeepsInv(b: Broker, startingCash: Money, k: ClientOrderKey, token: nat, fillFirst: int, at: Time)
    requires BrokerInv(b, startingCash)
    ensures BrokerInv(Cancel(b, k, token, fillFirst, at).broker, startingCash)
  {
    hide BrokerInv;
    FencedKeepsInv(b, startingCash, token);
    if token >= b.highestToken && k in b.orders {
      var fenced := PopScenario(b.(highestToken := token));
      FillKeepsInv(fenced, startingCash, k, fillFirst, k.limitPrice, at);
      var b1 := if fillFirst > 0 && Remaining(b, k) > 0 then FillOrder(fenced, k, fillFirst, k.limitPrice, at).broker else fenced;
      CancelRest(b1, startingCash, k, b.orders[k].orderId, at);
    }
  }

  lemma CancelRest(b: Broker, startingCash: Money, k: ClientOrderKey, orderId: nat, at: Time)
    requires BrokerInv(b, startingCash) && k in b.orders
    ensures var e := NextEvent(b, k, orderId, CancelAck, 0, None, 0, at);
            BrokerInv(Emit(b, e).(orders := b.orders[k := b.orders[k].(status := OrderCancelled)]), startingCash)
  {
    hide BrokerInv;
    OrderBounds(b, startingCash, k);
    var e := NextEvent(b, k, orderId, CancelAck, 0, None, 0, at);
    var order := b.orders[k].(status := OrderCancelled);
    EventKeepsInv(b, startingCash, e, order);
    assert WithEvent(b, e, order) == Emit(b, e).(orders := b.orders[k := order]);
  }

  lemma CommissionKeepsInv(b: Broker, startingCash: Money, k: ClientOrderKey, amount: int, at: Time)
    requires BrokerInv(b, startingCash)
    ensures BrokerInv(ChargeCommission(b, k, amount, at).broker, startingCash)
  {
    hide BrokerInv;
    var r := ChargeCommission(b, k, amount, at);
    if r.result.Ok? {
      OrderBounds(b, startingCash, k);
      EventKeepsInv(b, startingCash, r.result.value, b.orders[k]);
      assert WithEvent(b, r.result.value, b.orders[k]) == r.broker;
    }
  }

  lemma OrderBounds(b: Broker, startingCash: Money, k: ClientOrderKey)
    requires BrokerInv(b, startingCash) && k in b.orders
    ensures b.orders[k].intent.Key() == k && b.orders[k].filled <= k.quantity
  {
    assert OrderMatches(k, b.orders[k], EventSet(b.events));
  }

  /** The broker's events carry pairwise different ids. */
  lemma IdsNameEvents(b: Broker, e: BrokerEvent, f: BrokerEvent)
    requires SequencesIncrease(b.events, b.nextSequence) && e in b.events && f in b.events && e.id == f.id
    ensures e == f
  {
  }
}
