/** The records of the execution control plane.

    Digests are modelled as the documents they hash: canonical hashing is taken to be injective, so a
    client order key carries the economics it is computed from, an intent id carries its key and its
    reservation, and a broker event id carries the broker's raw payload. Other identifiers are natural
    numbers of which only equality matters. Money and prices are whole numbers of one minimal unit. */
module ControlModels {

  type Digest = nat
  type Name = nat
  type Instrument = nat
  type Account = nat
  type Currency = nat
  type Time = int
  type Money = int
  type Quantity = q: nat | 0 < q witness 1
  type Price = p: nat | 0 < p witness 1

  datatype Option<+T> = None | Some(value: T)
  datatype Result<+T> = Ok(value: T) | Err(error: Error)

  /** Why an operation of the store or the broker was refused. */
  datatype Error =
    | Frozen
    | IntegrityError
    | ImmutableConflict
    | UnboundIntent
    | CapacityExceeded
    | UnknownIntent
    | NotApprovalPending
    | MissingReservation
    | ReservationExpired
    | DifferentApproval
    | NotApproved
    | ArmExpired
    | DriftExceedsPolicy
    | AuthorityUnknown
    | AuthorityStale
    | AuthorityIncomplete
    | QuoteUnknown
    | QuoteStale
    | QuoteRejected
    | QuoteUnbound
    | ApprovalMissing
    | UpstreamExpired
    | ArmMissing
    | AuthorityChanged
    | LeaseHeld
    | StaleFencingToken
    | UnknownCommand
    | TerminalIntent
    | SnapshotNotNewer
    | FillWithoutPrice
    | UnknownOrder
    | AlreadyFilled
    | NegativeCommission
    | ResponseDropped

  datatype Side = Buy | Sell

  datatype ExecutionStatus =
    | Proposed | RiskReserved | ApprovalPending | Approved | Outboxed | Submitting
    | SubmissionUnknown | Acknowledged | PartiallyFilled | Filled | CancelRequested
    | CancelUnknown | Cancelled | Rejected | Expired | ReconciliationRequired

  datatype ReservationStatus =
    | Active | PartiallyConsumed | Consumed | Released | ReservationExpiredStatus | ReconciliationHold

  datatype OutboxStatus = Pending | Claimed | Delivered | Unknown

  datatype BrokerEventType = Ack | PartialFill | Fill | CancelAck | Reject | Commission

  datatype DecisionCapsule = DecisionCapsule(decisionId: Digest, content: Digest, createdAt: Time)

  /** A reservation is named by its decision and an account label. */
  datatype ReservationId = ReservationId(decisionId: Digest, account: Name)

  datatype RiskReservation = RiskReservation(
    id: ReservationId,
    accountId: Account,
    notional: nat,
    capacity: nat,
    quantityReserved: Quantity,
    quantityConsumed: nat,
    status: ReservationStatus,
    expiresAt: Time)

  /** The economics of an order; equal economics give the same key. */
  datatype ClientOrderKey = ClientOrderKey(
    decisionId: Digest,
    account: Account,
    instrument: Instrument,
    side: Side,
    quantity: Quantity,
    limitPrice: Price,
    stopPrice: Price,
    targetPrice: Price)

  datatype IntentId = IntentId(key: ClientOrderKey, reservationId: ReservationId)

  /** An intent as `ExecutionIntent.create` builds it: its id determines its economics. */
  datatype ExecutionIntent = ExecutionIntent(id: IntentId, status: ExecutionStatus, createdAt: Time)
  {
    function Key(): ClientOrderKey { id.key }
    function Quantity(): nat { id.key.quantity }
  }

  /** The raw payload whose hash names a broker event; it does not contain the two timestamps. */
  datatype EventId = EventId(
    brokerOrderId: nat,
    key: ClientOrderKey,
    kind: BrokerEventType,
    sequence: nat,
    filledQuantity: nat,
    fillPrice: Option<Price>,
    commission: nat)

  datatype BrokerEvent = BrokerEvent(id: EventId, occurredAt: Time, receivedAt: Time)
  {
    function Key(): ClientOrderKey { id.key }
    function Quantity(): nat { id.filledQuantity }
    predicate IsFill() { id.kind == PartialFill || id.kind == Fill }
  }

  datatype ExecutionLease = ExecutionLease(
    name: Name, owner: Name, fencingToken: nat, acquiredAt: Time, expiresAt: Time)

  datatype BrokerOrderTruth = BrokerOrderTruth(
    brokerOrderId: nat,
    key: ClientOrderKey,
    instrument: Instrument,
    side: Side,
    quantity: nat,
    filled: nat,
    protection: nat)

  datatype ProtectionType = Stop | Target | OtherProtection

  datatype BrokerProtectionTruth = BrokerProtectionTruth(
    parent: ClientOrderKey, kind: ProtectionType, quantity: nat, active: bool)

  datatype BrokerSnapshot = BrokerSnapshot(
    asOf: Time,
    complete: bool,
    certificate: Digest,
    cash: Money,
    settledCash: Option<Money>,
    buyingPower: Option<Money>,
    accruedCash: Option<Money>,
    baseCurrency: Currency,
    currencyBalances: map<Currency, Money>,
    orders: seq<BrokerOrderTruth>,
    positions: map<Instrument, int>,
    protections: map<Instrument, int>,
    events: seq<BrokerEvent>,
    protectionOrders: seq<BrokerProtectionTruth>)

  datatype FeedMode = Realtime | OtherFeed(Name)
  datatype MarketPhase = Regular | Open | OtherPhase(Name)
  datatype Venue = NoVenue | UnknownVenue | NamedVenue(Name)

  datatype QuoteSnapshot = QuoteSnapshot(
    id: Digest,
    symbol: Instrument,
    bid: Price,
    ask: Price,
    observedAt: Time,
    providerTimestamp: Time,
    feedMode: FeedMode,
    marketPhase: MarketPhase,
    venue: Venue,
    currency: Currency,
    rawHash: Digest)

  function Lookup<K, V>(m: map<K, V>, k: K, default: V): V { if k in m then m[k] else default }

  function Min(a: int, b: int): int { if a <= b then a else b }

  function Max(a: int, b: int): int { if a <= b then b else a }

  function Abs(a: int): int { if a < 0 then -a else a }
}
