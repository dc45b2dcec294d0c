/** Which long fills lack protection at the broker, and that a reconciliation finds exactly those. */
module ProtectionLaws {
  import opened BrokerModel
  import opened ControlModels
  import opened ControlTables
  import opened Ledger
  import opened ReconciliationModel
  import opened Sums

  predicate FullyProtected(orders: map<ClientOrderKey, BrokerOrder>) {
    forall k :: k in orders ==> orders[k].protection == k.quantity
  }

  /** Some buy order has filled more than it is protected for. */
  predicate Uncovered(orders: map<ClientOrderKey, BrokerOrder>) {
    exists k :: k in orders && k.side == Buy && orders[k].filled > orders[k].protection
  }

  ghost function CoverWeight(orders: map<ClientOrderKey, BrokerOrder>, i: Instrument): ClientOrderKey -> int {
    (k: ClientOrderKey) => if k in orders && k.instrument == i && k.side == Buy then Covered(orders[k]) else 0
  }

  /** How much of an instrument the buy orders protect together. */
  ghost function ProtectedIn(orders: map<ClientOrderKey, BrokerOrder>, i: Instrument): int { Sum(orders.Keys, CoverWeight(orders, i)) }

  ghost function OrderShortfalls(b: Broker): set<Discrepancy> {
    set k | k in b.orders && k.side == Buy && b.orders[k].filled > b.orders[k].protection ::
      ProtectionShortfall(k, b.orders[k].filled, b.orders[k].protection)
  }

  ghost function NakedLongs(b: Broker): set<Discrepancy> {
    set i | i in b.positions && b.positions[i] > ProtectedIn(b.orders, i) ::
      NakedLongExposure(i, b.positions[i], ProtectedIn(b.orders, i))
  }

  /** What a run has to report about protection, read off the broker's own books. */
  ghost function Shortfalls(b: Broker): set<Discrepancy> { OrderShortfalls(b) + NakedLongs(b) }

  /* ---------- Positions and protections, instrument by instrument ---------- */

  ghost function BrokerFilled(orders: map<ClientOrderKey, BrokerOrder>): ClientOrderKey -> int {
    (k: ClientOrderKey) => if k in orders then orders[k].filled else 0
  }

  /** The protection that the snapshot reports per instrument is the sum over its buy orders. */
  lemma {:induction false} ProtectionCovers(orders: map<ClientOrderKey, BrokerOrder>, keys: seq<ClientOrderKey>, i: Instrument)
    requires forall k :: k in keys ==> k in orders
    requires forall m, n :: 0 <= m < n < |keys| ==> keys[m] != keys[n]
    ensures Lookup(Protections(orders, keys), i, 0) == Sum((set k | k in keys), CoverWeight(orders, i))
  {
    var weight := CoverWeight(orders, i);
    if keys == [] {
      assert (set k | k in keys) == {};
    } else {
      var k, rest := keys[|keys| - 1], keys[..|keys| - 1];
      ProtectionCovers(orders, rest, i);
      assert k !in rest;
      assert (set j | j in keys) == (set j | j in rest) + {k};
      SumInsert((set j | j in rest), weight, k);
    }
  }

  lemma OrdersAreListed(b: Broker)
    requires KeysListed(b.orders, b.orderKeys)
    ensures (set k | k in b.orderKeys) == b.orders.Keys
  {
  }

  /** The broker's position in an instrument is the signed sum of its own order fills. */
  lemma BrokerPosition(b: Broker, startingCash: Money, i: Instrument)
    requires BrokerInv(b, startingCash)
    ensures Sum(b.orders.Keys, OrderWeight(BrokerFilled(b.orders), i)) == Lookup(b.positions, i, 0)
  {
    hide KeysListed, FilledQuantity, NetPosition, Acceptances, TradedInstruments;
    var events := EventSet(b.events);
    forall k | k in b.orders
      ensures OrderWeight(BrokerFilled(b.orders), i)(k) == OrderWeight(FilledBy(events), i)(k)
    {
      assert OrderMatches(k, b.orders[k], events);
    }
    SumCongruence(b.orders.Keys, OrderWeight(BrokerFilled(b.orders), i), OrderWeight(FilledBy(events), i));
    PositionByOrder(events, b.orders.Keys, i);
    BookLookup(events, i);
  }

  /** The naked exposures of a snapshot are those of the broker's books. */
  lemma NakedExactly(b: Broker, startingCash: Money, at: Time)
    requires BrokerInv(b, startingCash)
    ensures forall k :: k in b.orderKeys ==> k in b.orders
    ensures NakedExposures(Snapshot(b, at)) == NakedLongs(b)
  {
    hide ProtectionOrders, OrderTruths, OrdersMatch, BooksBalance, SequencesIncrease, Protections, Sum, CoverWeight;
    OrdersAreListed(b);
    forall i: Instrument
      ensures Lookup(Protections(b.orders, b.orderKeys), i, 0) == ProtectedIn(b.orders, i)
    {
      ProtectionCovers(b.orders, b.orderKeys, i);
    }
  }

  /** Orders that are covered one by one cover the position they add up to. */
  lemma CoveredPosition(b: Broker, startingCash: Money, i: Instrument)
    requires BrokerInv(b, startingCash) && !Uncovered(b.orders)
    ensures Lookup(b.positions, i, 0) <= ProtectedIn(b.orders, i)
  {
    hide BrokerInv, Sum;
    BrokerPosition(b, startingCash, i);
    SumMonotone(b.orders.Keys, OrderWeight(BrokerFilled(b.orders), i), CoverWeight(b.orders, i));
  }

  /** There is something to report about protection exactly when some buy order is short of it. */
  lemma ShortfallsExactly(b: Broker, startingCash: Money)
    requires BrokerInv(b, startingCash)
    ensures Shortfalls(b) == {} <==> !Uncovered(b.orders)
  {
    hide BrokerInv, ProtectedIn;
    if Uncovered(b.orders) {
      var k :| k in b.orders && k.side == Buy && b.orders[k].filled > b.orders[k].protection;
      assert ProtectionShortfall(k, b.orders[k].filled, b.orders[k].protection) in Shortfalls(b);
    } else {
      forall i | i in b.positions
        ensures b.positions[i] <= ProtectedIn(b.orders, i)
      {
        CoveredPosition(b, startingCash, i);
      }
    }
  }

  lemma FullyProtectedIsCovered(b: Broker, startingCash: Money)
    requires BrokerInv(b, startingCash) && FullyProtected(b.orders)
    ensures !Uncovered(b.orders)
  {
    hide BrokerInv;
    forall k | k in b.orders
      ensures b.orders[k].filled <= b.orders[k].protection
    {
      OrderBounds(b, startingCash, k);
    }
  }

  /* ---------- Order by order ---------- */

  /** The children that one more order adds. */
  lemma NextChildren(before: seq<BrokerProtectionTruth>, order: BrokerOrder, j: ClientOrderKey, k: ClientOrderKey)
    requires order.filled > 0 && order.protection > 0
    ensures var after := before + [BrokerProtectionTruth(j, Stop, Covered(order), true), BrokerProtectionTruth(j, Target, Covered(order), true)];
            var added := if j == k then Covered(order) else 0;
            && HasChildren(after, k) == (HasChildren(before, k) || j == k)
            && ChildQuantity(after, k, Stop) == ChildQuantity(before, k, Stop) + added
            && ChildQuantity(after, k, Target) == ChildQuantity(before, k, Target) + added
  {
    hide HasChildren, ChildQuantity, Covered;
    var stop := BrokerProtectionTruth(j, Stop, Covered(order), true);
    var target := BrokerProtectionTruth(j, Target, Covered(order), true);
    assert before + [stop, target] == before + [stop] + [target];
    AddChild(before, stop, k);
    AddChild(before + [stop], target, k);
  }

  lemma NoChildren(k: ClientOrderKey)
    ensures !HasChildren([], k) && ChildQuantity([], k, Stop) == 0 && ChildQuantity([], k, Target) == 0
  {
  }

  /** The stop and target children of an order each carry its covered quantity, once. */
  lemma {:induction false} ChildrenCover(orders: map<ClientOrderKey, BrokerOrder>, keys: seq<ClientOrderKey>, k: ClientOrderKey)
    requires forall j :: j in keys ==> j in orders
    requires forall m, n :: 0 <= m < n < |keys| ==> keys[m] != keys[n]
    ensures var children := ProtectionOrders(orders, keys);
            var listed := k in keys && orders[k].filled > 0 && orders[k].protection > 0;
            && HasChildren(children, k) == listed
            && ChildQuantity(children, k, Stop) == (if listed then Covered(orders[k]) else 0)
            && ChildQuantity(children, k, Target) == (if listed then Covered(orders[k]) else 0)
  {
    hide HasChildren, ChildQuantity, Covered;
    if keys == [] {
      NoChildren(k);
    } else {
      var j, rest := keys[|keys| - 1], keys[..|keys| - 1];
      ChildrenCover(orders, rest, k);
      assert j !in rest;
      assert ProtectionOrders(orders, keys) == if orders[j].filled > 0 && orders[j].protection > 0
        then ProtectionOrders(orders, rest) + [BrokerProtectionTruth(j, Stop, Covered(orders[j]), true), BrokerProtectionTruth(j, Target, Covered(orders[j]), true)]
        else ProtectionOrders(orders, rest);
      if orders[j].filled > 0 && orders[j].protection > 0 { NextChildren(ProtectionOrders(orders, rest), orders[j], j, k); }
    }
  }

  lemma AddChild(children: seq<BrokerProtectionTruth>, child: BrokerProtectionTruth, k: ClientOrderKey)
    ensures HasChildren(children + [child], k) == (HasChildren(children, k) || IsChild(child, k))
    ensures forall kind :: ChildQuantity(children + [child], k, kind) ==
                           ChildQuantity(children, k, kind) + if IsChild(child, k) && child.kind == kind then child.quantity else 0
  {
    var all := children + [child];
    assert all[..|all| - 1] == children && all[|all| - 1] == child;
    if HasChildren(children, k) {
      var i :| 0 <= i < |children| && IsChild(children[i], k);
      assert IsChild(all[i], k);
    }
    if IsChild(child, k) {
      assert IsChild(all[|children|], k);
    }
  }

  /** With or without children, an order counts as covered for what it is protected for, up to its fill. */
  lemma CoveredExactly(b: Broker, asOf: Time, k: ClientOrderKey)
    requires KeysListed(b.orders, b.orderKeys) && k in b.orders
    ensures CoveredQuantity(Snapshot(b, asOf), OrderTruth(k, b.orders[k]), k) == Covered(b.orders[k])
  {
    hide HasChildren, ChildQuantity, ProtectionOrders, Protections, OrderTruths;
    ChildrenCover(b.orders, b.orderKeys, k);
  }
}
