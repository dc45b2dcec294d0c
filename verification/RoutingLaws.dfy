/** Which order every callback of a tape ends up in, and what the read model then says, stated on the sorted facts alone. */
module RoutingLaws {
  import opened ControlModels
  import opened FactReducer
  import opened Sorting

  /* ---------- The owner of a callback ---------- */

  predicate HasPerm(f: Fact) { f.payload.fields.permId.Val? && f.payload.fields.permId.value != 0 }

  predicate HasRef(f: Fact) { f.payload.fields.orderRef.Val? && f.payload.fields.orderRef.value != "" }

  /** The client and its order number, a missing one being zero. */
  function ClientSlot(f: Fact): (int, int) {
    (if f.payload.fields.clientId.Val? then f.payload.fields.clientId.value else 0,
     if f.payload.fields.orderId.Val? then f.payload.fields.orderId.value else 0)
  }

  predicate IsCallback(f: Fact) { f.kind in {OpenOrder, CompletedOrder, OrderStatusFact} }

  predicate InSlot(f: Fact, slot: (int, int)) { IsCallback(f) && ClientSlot(f) == slot }

  /** The last of the first n facts that is a callback of the slot. */
  function LatestIn(facts: seq<Fact>, n: nat, slot: (int, int)): (r: Option<nat>)
    requires n <= |facts|
    ensures r.Some? ==> r.value < n && InSlot(facts[r.value], slot) && forall m :: r.value < m < n ==> !InSlot(facts[m], slot)
    ensures r.None? ==> forall m :: 0 <= m < n ==> !InSlot(facts[m], slot)
  {
    if n == 0 then None
    else if InSlot(facts[n - 1], slot) then Some(n - 1)
    else LatestIn(facts, n - 1, slot)
  }

  /** A perm id names the order, then a reference, then whatever the slot's latest callback before named. */
  function OwnerOf(facts: seq<Fact>, n: nat): Identity
    requires n < |facts|
    decreases n
  {
    if HasPerm(facts[n]) then ByPerm(facts[n].payload.fields.permId.value)
    else if HasRef(facts[n]) then ByRef(facts[n].payload.fields.orderRef.value)
    else
      var slot := ClientSlot(facts[n]);
      var latest := LatestIn(facts, n, slot);
      if latest.Some? then OwnerOf(facts, latest.value) else BySession(facts[n].session, slot.0, slot.1)
  }

  /** The callbacks that name an order, in their order. */
  function Contributions(facts: seq<Fact>, n: nat, identity: Identity): seq<OrderFields>
    requires n <= |facts|
  {
    if n == 0 then []
    else
      Contributions(facts, n - 1, identity)
      + if IsCallback(facts[n - 1]) && OwnerOf(facts, n - 1) == identity
        then [facts[n - 1].payload.fields.(receivedAt := Val(facts[n - 1].receivedAt))] else []
  }

  /* ---------- The alias table holds the owners ---------- */

  lemma {:induction false} LatestOfFront(facts: seq<Fact>, k: nat, n: nat, slot: (int, int))
    requires n <= k <= |facts|
    ensures LatestIn(facts[..k], n, slot) == LatestIn(facts, n, slot)
    decreases n
  {
    if n > 0 { LatestOfFront(facts, k, n - 1, slot); }
  }

  lemma {:induction false} OwnerOfFront(facts: seq<Fact>, k: nat, n: nat)
    requires n < k <= |facts|
    ensures OwnerOf(facts[..k], n) == OwnerOf(facts, n)
    decreases n
  {
    hide HasPerm, HasRef, LatestIn;
    var slot := ClientSlot(facts[n]);
    LatestOfFront(facts, k, n, slot);
    assert facts[..k][n] == facts[n];
    if LatestIn(facts, n, slot).Some? { OwnerOfFront(facts, k, LatestIn(facts, n, slot).value); }
  }

  ghost predicate AliasesAre(facts: seq<Fact>, aliases: map<(int, int), Identity>) {
    forall slot ::
      var latest := LatestIn(facts, |facts|, slot);
      if latest.Some? then slot in aliases && aliases[slot] == OwnerOf(facts, latest.value) else slot !in aliases
  }

  /** The alias table before a callback routes it to its owner. */
  lemma RoutesToOwner(facts: seq<Fact>, aliases: map<(int, int), Identity>)
    requires facts != [] && AliasesAre(facts[..|facts| - 1], aliases)
    ensures Route(aliases, facts[|facts| - 1]) == OwnerOf(facts, |facts| - 1)
    ensures SlotOf(facts[|facts| - 1]) == ClientSlot(facts[|facts| - 1])
  {
    var n := |facts| - 1;
    var slot := ClientSlot(facts[n]);
    LatestOfFront(facts, n, n, slot);
    hide LatestIn;
    var latest := LatestIn(facts, n, slot);
    assert |facts[..n]| == n;
    if latest.Some? { OwnerOfFront(facts, n, latest.value); }
  }

  lemma AliasesMore(facts: seq<Fact>, aliases: map<(int, int), Identity>)
    requires facts != [] && AliasesAre(facts[..|facts| - 1], aliases)
    ensures var n := |facts| - 1;
            AliasesAre(facts, if IsCallback(facts[n]) then aliases[ClientSlot(facts[n]) := OwnerOf(facts, n)] else aliases)
  {
    hide OwnerOf, ClientSlot;
    var n := |facts| - 1;
    assert |facts[..n]| == n;
    forall slot
      ensures LatestIn(facts[..n], n, slot) == LatestIn(facts, n, slot)
      ensures LatestIn(facts, n, slot).Some? ==> OwnerOf(facts[..n], LatestIn(facts, n, slot).value) == OwnerOf(facts, LatestIn(facts, n, slot).value)
    {
      LatestOfFront(facts, n, n, slot);
      if LatestIn(facts, n, slot).Some? { OwnerOfFront(facts, n, LatestIn(facts, n, slot).value); }
    }
  }

  lemma StepAliasesAre(s: ReducerState, f: Fact)
    ensures Step(s, f).aliases == if IsCallback(f) then s.aliases[SlotOf(f) := Route(s.aliases, f)] else s.aliases
  {
    hide Route, SlotOf, MergeOrder, MergeConflicts;
  }

  lemma {:induction false} FoldAliasesAre(facts: seq<Fact>)
    ensures AliasesAre(facts, Fold(facts).aliases)
  {
    if facts != [] {
      hide Step, Route, AliasesAre, OwnerOf;
      var front := facts[..|facts| - 1];
      FoldAliasesAre(front);
      StepAliasesAre(Fold(front), facts[|facts| - 1]);
      RoutesToOwner(facts, Fold(front).aliases);
      AliasesMore(facts, Fold(front).aliases);
    }
  }

  lemma {:induction false} ContributionsOfFront(facts: seq<Fact>, k: nat, n: nat, identity: Identity)
    requires n <= k <= |facts|
    ensures Contributions(facts[..k], n, identity) == Contributions(facts, n, identity)
    decreases n
  {
    hide OwnerOf;
    if n > 0 {
      ContributionsOfFront(facts, k, n - 1, identity);
      OwnerOfFront(facts, k, n - 1);
    }
  }

  lemma {:induction false} RoutedAreContributions(facts: seq<Fact>, identity: Identity)
    ensures Routed(facts, identity) == Contributions(facts, |facts|, identity)
  {
    hide Route, OwnerOf, Fold, AliasesAre;
    if facts != [] {
      var n := |facts| - 1;
      RoutedAreContributions(facts[..n], identity);
      ContributionsOfFront(facts, n, n, identity);
      FoldAliasesAre(facts[..n]);
      RoutesToOwner(facts, Fold(facts[..n]).aliases);
      assert |facts[..n]| == n;
    }
  }

  /* ---------- The orders of the read model ---------- */

  /** Which order a callback belongs to, clause by clause. */
  lemma OwnerExactly(facts: seq<Fact>, n: nat)
    requires n < |facts| && IsCallback(facts[n])
    ensures var fields := facts[n].payload.fields;
            && (fields.permId.Val? && fields.permId.value != 0 ==> OwnerOf(facts, n) == ByPerm(fields.permId.value))
            && (!HasPerm(facts[n]) && HasRef(facts[n]) ==> OwnerOf(facts, n) == ByRef(fields.orderRef.value))
            && (!HasPerm(facts[n]) && !HasRef(facts[n]) ==>
                  && (forall m :: 0 <= m < n && InSlot(facts[m], ClientSlot(facts[n]))
                                  && (forall l :: m < l < n ==> !InSlot(facts[l], ClientSlot(facts[n])))
                                  ==> OwnerOf(facts, n) == OwnerOf(facts, m))
                  && ((forall m :: 0 <= m < n ==> !InSlot(facts[m], ClientSlot(facts[n]))) ==>
                        OwnerOf(facts, n) == BySession(facts[n].session, ClientSlot(facts[n]).0, ClientSlot(facts[n]).1)))
  {
    hide ClientSlot;
    var latest := LatestIn(facts, n, ClientSlot(facts[n]));
    forall m | 0 <= m < n && InSlot(facts[m], ClientSlot(facts[n])) && forall l :: m < l < n ==> !InSlot(facts[l], ClientSlot(facts[n]))
      ensures latest == Some(m)
    {
    }
  }

  /** Some callback among the first n facts belongs to the order. */
  predicate Owns(facts: seq<Fact>, n: nat, identity: Identity)
    requires n <= |facts|
  {
    exists m :: 0 <= m < n && IsCallback(facts[m]) && OwnerOf(facts, m) == identity
  }

  /** The orders of the read model, exactly: an order is there if and only if some callback belongs to it, and it is the
      merge of the callbacks that belong to it, in the order of the sorted facts. */
  lemma OrdersExactly(facts: seq<Fact>, identity: Identity)
    requires Reduce(facts).Reduced?
    ensures var sorted, orders := Sort(facts, FactLeq), Reduce(facts).model.orders;
            var callbacks := Contributions(sorted, |sorted|, identity);
            && (identity in orders <==> Owns(sorted, |sorted|, identity))
            && (identity in orders ==> orders[identity] == MergeAll(callbacks) && ClosedForm(orders[identity], callbacks))
  {
    hide Sort, Fold, Routed, ClosedForm, MergeAll, Corrections, EffectiveIds, Roots, FactLeq, OwnerOf, Contributions, Owns;
    var sorted := Sort(facts, FactLeq);
    assert Reduce(facts).model.orders == Fold(sorted).orders;
    OrderIsMerge(sorted, identity);
    MergeAllClosedForm(Routed(sorted, identity));
    RoutedAreContributions(sorted, identity);
    ContributesExactly(sorted, |sorted|, identity);
  }

  lemma {:induction false} ContributesExactly(facts: seq<Fact>, n: nat, identity: Identity)
    requires n <= |facts|
    ensures Contributions(facts, n, identity) != [] <==> Owns(facts, n, identity)
    decreases n
  {
    hide OwnerOf;
    if n > 0 { ContributesExactly(facts, n - 1, identity); }
  }

  /* ---------- The order of the facts ---------- */

  function KindRank(kind: FactType): nat {
    match kind
    case AccountValueFact => 0
    case CommissionFact => 1
    case CompletedOrder => 2
    case ExecutionFact => 3
    case OpenOrder => 4
    case OrderStatusFact => 5
    case PositionFact => 6
    case OtherFact(_) => 7
  }

  /** The sort key compares the kinds by their names, then the identity keys, then the ids. */
  lemma SortKeyExactly(f: Fact, g: Fact)
    requires !f.kind.OtherFact? && !g.kind.OtherFact?
    ensures KindRank(f.kind) < KindRank(g.kind) ==> FactLeq(f, g) && !FactLeq(g, f)
    ensures f.kind == g.kind && f.identityKey != g.identityKey ==> (FactLeq(f, g) <==> StringLeq(f.identityKey, g.identityKey))
    ensures f.kind == g.kind && f.identityKey == g.identityKey ==> (FactLeq(f, g) <==> StringLeq(f.id, g.id))
  {
    hide TypeName, StringLeq;
    if KindRank(f.kind) < KindRank(g.kind) { KindNames(f.kind, g.kind); }
  }

  lemma {:induction false} FirstDifference(a: string, b: string, i: nat)
    requires i < |a| && i < |b| && a[..i] == b[..i] && a[i] < b[i]
    ensures StringLeq(a, b) && !StringLeq(b, a) && a != b
    decreases i
  {
    if i > 0 {
      assert a[0] == a[..i][0] == b[..i][0] == b[0];
      assert a[1..][..i - 1] == a[..i][1..] == b[..i][1..] == b[1..][..i - 1];
      FirstDifference(a[1..], b[1..], i - 1);
    }
  }

  lemma KindNames(a: FactType, b: FactType)
    requires !a.OtherFact? && !b.OtherFact? && KindRank(a) < KindRank(b)
    ensures TypeName(a) != TypeName(b) && StringLeq(TypeName(a), TypeName(b)) && !StringLeq(TypeName(b), TypeName(a))
  {
    hide StringLeq;
    if a == CommissionFact && b == CompletedOrder {
      assert TypeName(a)[..3] == "COM" == TypeName(b)[..3];
      FirstDifference(TypeName(a), TypeName(b), 3);
    } else if a == OpenOrder && b == OrderStatusFact {
      assert TypeName(a)[..1] == "O" == TypeName(b)[..1];
      FirstDifference(TypeName(a), TypeName(b), 1);
    } else {
      assert TypeName(a)[..0] == TypeName(b)[..0];
      FirstDifference(TypeName(a), TypeName(b), 0);
    }
  }
}
