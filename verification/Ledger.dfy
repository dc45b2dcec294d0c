/** The economic meaning of a set of broker events, independent of the order they arrived in. Both the
    store's projections and the broker's own books are compared with these definitions. */
module Ledger {
  import opened ControlModels
  import opened ControlTables
  import opened Sums

  ghost function FilledWeight(k: ClientOrderKey): BrokerEvent -> int {
    (e: BrokerEvent) => if e.Key() == k then e.Quantity() else 0
  }

  ghost function PositionWeight(i: Instrument): BrokerEvent -> int {
    (e: BrokerEvent) => if e.IsFill() && e.Key().instrument == i then SignedQuantity(e.Key().side, e.Quantity()) else 0
  }

  ghost function CashWeight(): BrokerEvent -> int { (e: BrokerEvent) => CashEffect(e) }

  ghost function CommissionWeight(): BrokerEvent -> int { (e: BrokerEvent) => e.id.commission }

  /** The quantity filled for one client order key. */
  ghost function FilledQuantity(events: set<BrokerEvent>, k: ClientOrderKey): int { Sum(events, FilledWeight(k)) }

  /** Signed fills of one instrument. */
  ghost function NetPosition(events: set<BrokerEvent>, i: Instrument): int { Sum(events, PositionWeight(i)) }

  ghost function CashFlow(events: set<BrokerEvent>): int { Sum(events, CashWeight()) }

  ghost function TotalCommission(events: set<BrokerEvent>): int { Sum(events, CommissionWeight()) }

  /** The instruments that were ever filled. */
  ghost function TradedInstruments(events: set<BrokerEvent>): set<Instrument> {
    set e | e in events && e.IsFill() :: e.Key().instrument
  }

  /** The position book a replay of the events produces. */
  ghost function PositionBook(events: set<BrokerEvent>): map<Instrument, int> {
    map i | i in TradedInstruments(events) :: NetPosition(events, i)
  }

  lemma EmptyLedger()
    ensures PositionBook({}) == map[] && CashFlow({}) == 0 && TotalCommission({}) == 0
    ensures forall k :: FilledQuantity({}, k) == 0
  {
  }

  lemma NothingTraded(events: set<BrokerEvent>, i: Instrument)
    requires i !in TradedInstruments(events)
    ensures NetPosition(events, i) == 0
  {
    SumZero(events, PositionWeight(i));
  }

  lemma BookLookup(events: set<BrokerEvent>, i: Instrument)
    ensures Lookup(PositionBook(events), i, 0) == NetPosition(events, i)
  {
    if i !in TradedInstruments(events) {
      NothingTraded(events, i);
    }
  }

  /** One more event moves each total by the event's own weight. */
  lemma FilledInsert(events: set<BrokerEvent>, e: BrokerEvent, k: ClientOrderKey)
    requires e !in events
    ensures FilledQuantity(events + {e}, k) == FilledQuantity(events, k) + (if e.Key() == k then e.Quantity() else 0)
  {
    SumInsert(events, FilledWeight(k), e);
  }

  lemma CashInsert(events: set<BrokerEvent>, e: BrokerEvent)
    requires e !in events
    ensures CashFlow(events + {e}) == CashFlow(events) + CashEffect(e)
    ensures TotalCommission(events + {e}) == TotalCommission(events) + e.id.commission
  {
    SumInsert(events, CashWeight(), e);
    SumInsert(events, CommissionWeight(), e);
  }

  /** A position book after one more event. */
  function Booked(positions: map<Instrument, int>, e: BrokerEvent): map<Instrument, int> {
    if e.IsFill()
    then positions[e.Key().instrument := Lookup(positions, e.Key().instrument, 0) + SignedQuantity(e.Key().side, e.Quantity())]
    else positions
  }

  lemma BookInsert(events: set<BrokerEvent>, e: BrokerEvent)
    requires e !in events
    ensures PositionBook(events + {e}) == Booked(PositionBook(events), e)
  {
    hide Sum;
    assert TradedInstruments(events + {e}) == TradedInstruments(events) + if e.IsFill() then {e.Key().instrument} else {};
    forall i
      ensures NetPosition(events + {e}, i) == NetPosition(events, i) + PositionWeight(i)(e)
    {
      SumInsert(events, PositionWeight(i), e);
    }
    if e.IsFill() {
      BookLookup(events, e.Key().instrument);
    }
  }

  /* ---------- Positions by order and by event ---------- */

  /** The signed filled quantity of one key, if it trades instrument i. */
  ghost function OrderWeight(filled: ClientOrderKey -> int, i: Instrument): ClientOrderKey -> int {
    (k: ClientOrderKey) => if k.instrument == i then SignedQuantity(k.side, filled(k)) else 0
  }

  ghost function FilledBy(events: set<BrokerEvent>): ClientOrderKey -> int {
    (k: ClientOrderKey) => FilledQuantity(events, k)
  }

  /** Only fills carry a quantity. */
  predicate PlainEvent(e: BrokerEvent) { e.IsFill() || e.Quantity() == 0 }

  lemma OrderWeightStep(events: set<BrokerEvent>, e: BrokerEvent, k: ClientOrderKey, i: Instrument)
    requires e !in events && PlainEvent(e)
    ensures OrderWeight(FilledBy(events + {e}), i)(k) ==
            OrderWeight(FilledBy(events), i)(k) + if k == e.Key() then PositionWeight(i)(e) else 0
  {
    SumInsert(events, FilledWeight(k), e);
  }

  /** One more event moves the order-by-order position by the event's own weight. */
  lemma PositionByOrderStep(events: set<BrokerEvent>, e: BrokerEvent, keys: set<ClientOrderKey>, i: Instrument)
    requires e !in events && PlainEvent(e) && e.Key() in keys
    ensures Sum(keys, OrderWeight(FilledBy(events + {e}), i)) == Sum(keys, OrderWeight(FilledBy(events), i)) + PositionWeight(i)(e)
  {
    hide Sum;
    var before, after := OrderWeight(FilledBy(events), i), OrderWeight(FilledBy(events + {e}), i);
    forall k
      ensures after(k) == before(k) + if k == e.Key() then PositionWeight(i)(e) else 0
    {
      OrderWeightStep(events, e, k, i);
    }
    hide OrderWeight, PositionWeight, FilledBy;
    SumShift(keys, before, after, e.Key());
  }

  lemma NoEventsNoPosition(keys: set<ClientOrderKey>, i: Instrument)
    ensures Sum(keys, OrderWeight(FilledBy({}), i)) == 0 == NetPosition({}, i)
  {
    SumZero(keys, OrderWeight(FilledBy({}), i));
  }

  /** Summing fills order by order or event by event gives the same position. */
  lemma {:induction false} PositionByOrder(events: set<BrokerEvent>, keys: set<ClientOrderKey>, i: Instrument)
    requires forall e :: e in events ==> e.Key() in keys && PlainEvent(e)
    ensures Sum(keys, OrderWeight(FilledBy(events), i)) == NetPosition(events, i)
    decreases |events|
  {
    hide Sum, OrderWeight, PositionWeight, FilledBy;
    if events == {} {
      NoEventsNoPosition(keys, i);
    } else {
      var e :| e in events;
      var rest := events - {e};
      PositionByOrder(rest, keys, i);
      assert rest + {e} == events;
      SumInsert(rest, PositionWeight(i), e);
      PositionByOrderStep(rest, e, keys, i);
    }
  }
}
