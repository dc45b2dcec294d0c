/** The reducer of broker callbacks: facts are sorted, routed through a table of aliases, and merged field by
    field. Its result depends on the set of facts only. Decimal fields are compared by value. */
module FactReducer {
  import opened ControlModels
  import opened Sorting

  /* ---------- Facts ---------- */

  datatype FactType =
    | OpenOrder | CompletedOrder | OrderStatusFact | ExecutionFact | CommissionFact | PositionFact | AccountValueFact
    | OtherFact(name: string)

  function TypeName(t: FactType): string {
    match t
    case OpenOrder => "OPEN_ORDER"
    case CompletedOrder => "COMPLETED_ORDER"
    case OrderStatusFact => "ORDER_STATUS"
    case ExecutionFact => "EXECUTION"
    case CommissionFact => "COMMISSION"
    case PositionFact => "POSITION"
    case AccountValueFact => "ACCOUNT_VALUE"
    case OtherFact(name) => name
  }

  /** A key of a payload: missing, null, or with a value. */
  datatype Cell<+T> = Absent | Null | Val(value: T)

  datatype OrderFields = OrderFields(
    status: Cell<string>,
    filled: Cell<real>,
    remaining: Cell<real>,
    avgFillPrice: Cell<real>,
    permId: Cell<int>,
    parentId: Cell<int>,
    clientId: Cell<int>,
    orderId: Cell<int>,
    orderRef: Cell<string>,
    others: map<string, Digest>,
    receivedAt: Cell<Time>)

  datatype Payload = Payload(fields: OrderFields, execId: Option<string>, body: Digest)

  datatype Fact = Fact(
    id: string, session: string, kind: FactType, identityKey: string, payload: Payload, receivedAt: Time)

  predicate IsOrderFact(f: Fact) { f.kind == OpenOrder || f.kind == CompletedOrder || f.kind == OrderStatusFact }

  /** What an order fact contributes: its payload and the time it was received. */
  function Incoming(f: Fact): OrderFields { f.payload.fields.(receivedAt := Val(f.receivedAt)) }

  /** A fact id hashes everything but the time the fact was received, and a tape keeps the first fact of each id. */
  ghost predicate IdsNameFacts(facts: set<Fact>) { forall f, g :: f in facts && g in facts && f.id == g.id ==> f == g }

  predicate FactLeq(f: Fact, g: Fact) {
    if TypeName(f.kind) != TypeName(g.kind) then StringLeq(TypeName(f.kind), TypeName(g.kind))
    else if f.identityKey != g.identityKey then StringLeq(f.identityKey, g.identityKey)
    else StringLeq(f.id, g.id)
  }

  lemma FactsOrdered(facts: set<Fact>)
    requires IdsNameFacts(facts)
    ensures Orders(FactLeq, facts)
  {
    forall f, g | f in facts && g in facts
      ensures FactLeq(f, g) || FactLeq(g, f)
      ensures FactLeq(f, g) && FactLeq(g, f) ==> f == g
    {
      StringTotal(TypeName(f.kind), TypeName(g.kind));
      StringTotal(f.identityKey, g.identityKey);
      StringTotal(f.id, g.id);
    }
    forall f, g, h | f in facts && g in facts && h in facts && FactLeq(f, g) && FactLeq(g, h)
      ensures FactLeq(f, h)
    {
      FactLeqTransitive(f, g, h);
    }
  }

  lemma FactLeqTransitive(f: Fact, g: Fact, h: Fact)
    requires FactLeq(f, g) && FactLeq(g, h)
    ensures FactLeq(f, h)
  {
    StringTotal(TypeName(f.kind), TypeName(g.kind));
    StringTotal(f.identityKey, g.identityKey);
    if StringLeq(TypeName(f.kind), TypeName(g.kind)) && StringLeq(TypeName(g.kind), TypeName(h.kind)) {
      StringTransitive(TypeName(f.kind), TypeName(g.kind), TypeName(h.kind));
    }
    if StringLeq(f.identityKey, g.identityKey) && StringLeq(g.identityKey, h.identityKey) {
      StringTransitive(f.identityKey, g.identityKey, h.identityKey);
    }
    if StringLeq(f.id, g.id) && StringLeq(g.id, h.id) {
      StringTransitive(f.id, g.id, h.id);
    }
  }

  /* ---------- Merging the fields of one order ---------- */

  const EMPTY_ORDER := OrderFields(Absent, Absent, Absent, Absent, Absent, Absent, Absent, Absent, Absent, map[], Absent)

  datatype IdField = PermId | ParentId | ClientId

  /** Two different non-zero ids for one order. */
  datatype Conflict = Conflict(field: IdField, values: set<int>)

  function StatusRank(status: Cell<string>): nat {
    match status
    case Val("PendingSubmit") => 1
    case Val("PreSubmitted") => 2
    case Val("Submitted") => 3
    case Val("PendingCancel") => 4
    case Val("Cancelled") => 5
    case Val("ApiCancelled") => 5
    case Val("Inactive") => 5
    case Val("Filled") => 6
    case _ => 0
  }

  function Amount(cell: Cell<real>): real { if cell.Val? then cell.value else 0.0 }

  function MaxReal(a: real, b: real): real { if a <= b then b else a }

  /** The later key wins. */
  function Overlay<T>(current: Cell<T>, incoming: Cell<T>): Cell<T> { if incoming.Absent? then current else incoming }

  function MergeStatus(current: Cell<string>, incoming: Cell<string>): Cell<string> {
    if StatusRank(current) > StatusRank(incoming) then current else Overlay(current, incoming)
  }

  function MergeRemaining(current: Cell<real>, incoming: Cell<real>): Cell<real> {
    match (current, incoming)
    case (Val(a), Val(b)) => Val(if b < a then b else a)
    case (Val(a), _) => Val(a)
    case (_, Val(b)) => Val(b)
    case _ => Overlay(current, incoming)
  }

  predicate RealId(cell: Cell<int>) { cell.Val? && cell.value != 0 }

  function IdValues(current: Cell<int>, incoming: Cell<int>): set<int> {
    (if RealId(current) then {current.value} else {}) + (if RealId(incoming) then {incoming.value} else {})
  }

  function MergeId(current: Cell<int>, incoming: Cell<int>): Cell<int> {
    if RealId(current) && RealId(incoming) then Val(Min(current.value, incoming.value))
    else if RealId(current) then current
    else if RealId(incoming) then incoming
    else Overlay(current, incoming)
  }

  function IdConflict(field: IdField, current: Cell<int>, incoming: Cell<int>): set<Conflict> {
    if |IdValues(current, incoming)| > 1 then {Conflict(field, IdValues(current, incoming))} else {}
  }

  function MergeOrder(current: OrderFields, incoming: OrderFields): OrderFields {
    OrderFields(
      MergeStatus(current.status, incoming.status),
      Val(MaxReal(Amount(current.filled), Amount(incoming.filled))),
      MergeRemaining(current.remaining, incoming.remaining),
      if Amount(current.filled) > Amount(incoming.filled) && current.avgFillPrice.Val? then current.avgFillPrice
      else Overlay(current.avgFillPrice, incoming.avgFillPrice),
      MergeId(current.permId, incoming.permId),
      MergeId(current.parentId, incoming.parentId),
      MergeId(current.clientId, incoming.clientId),
      Overlay(current.orderId, incoming.orderId),
      Overlay(current.orderRef, incoming.orderRef),
      current.others + incoming.others,
      Overlay(current.receivedAt, incoming.receivedAt))
  }

  function MergeConflicts(current: OrderFields, incoming: OrderFields): set<Conflict> {
    IdConflict(PermId, current.permId, incoming.permId)
    + IdConflict(ParentId, current.parentId, incoming.parentId)
    + IdConflict(ClientId, current.clientId, incoming.clientId)
  }

  lemma MergeIdTwice(field: IdField, current: Cell<int>, incoming: Cell<int>)
    ensures MergeId(MergeId(current, incoming), incoming) == MergeId(current, incoming)
    ensures IdConflict(field, MergeId(current, incoming), incoming) <= IdConflict(field, current, incoming)
  {
    if RealId(current) && RealId(incoming) && current.value < incoming.value {
      assert IdValues(MergeId(current, incoming), incoming) == IdValues(current, incoming);
    } else if RealId(incoming) {
      assert IdValues(MergeId(current, incoming), incoming) == {incoming.value};
    } else if RealId(current) {
      assert IdValues(MergeId(current, incoming), incoming) == {current.value};
    }
  }

  /** Merging the same callback again changes nothing and reports no new conflict. */
  lemma MergeTwice(current: OrderFields, incoming: OrderFields)
    ensures MergeOrder(MergeOrder(current, incoming), incoming) == MergeOrder(current, incoming)
    ensures MergeConflicts(MergeOrder(current, incoming), incoming) <= MergeConflicts(current, incoming)
  {
    MergeIdTwice(PermId, current.permId, incoming.permId);
    MergeIdTwice(ParentId, current.parentId, incoming.parentId);
    MergeIdTwice(ClientId, current.clientId, incoming.clientId);
    assert current.others + incoming.others + incoming.others == current.others + incoming.others;
    hide MergeId, IdConflict, IdValues;
  }

  /* ---------- Routing and folding ---------- */

  datatype Identity = ByPerm(perm: int) | ByRef(ref: string) | BySession(session: string, client: int, order: int)

  datatype Stored = Stored(payload: Payload, receivedAt: Time)

  datatype ReducerState = ReducerState(
    orders: map<Identity, OrderFields>,
    aliases: map<(int, int), Identity>,
    executions: map<string, Stored>,
    commissions: map<string, Stored>,
    positions: map<string, Stored>,
    accounts: map<string, Stored>,
    conflicts: set<Conflict>)

  const NEW_STATE := ReducerState(map[], map[], map[], map[], map[], map[], {})

  function IntOf(cell: Cell<int>): int { if cell.Val? then cell.value else 0 }

  function SlotOf(f: Fact): (int, int) { (IntOf(f.payload.fields.clientId), IntOf(f.payload.fields.orderId)) }

  /** A perm id routes best, then an order reference, then what the client's order slot was last routed to. */
  function Route(aliases: map<(int, int), Identity>, f: Fact): Identity {
    var perm := IntOf(f.payload.fields.permId);
    var ref := if f.payload.fields.orderRef.Val? then f.payload.fields.orderRef.value else "";
    if perm != 0 then ByPerm(perm)
    else if ref != "" then ByRef(ref)
    else Lookup(aliases, SlotOf(f), BySession(f.session, SlotOf(f).0, SlotOf(f).1))
  }

  /** One fact; execution and commission facts must carry an execution id. */
  function Step(s: ReducerState, f: Fact): ReducerState {
    var stored := Stored(f.payload, f.receivedAt);
    match f.kind
    case OtherFact(_) => s
    case PositionFact => s.(positions := s.positions[f.identityKey := stored])
    case AccountValueFact => s.(accounts := s.accounts[f.identityKey := stored])
    case ExecutionFact =>
      if f.payload.execId.Some? then s.(executions := s.executions[f.payload.execId.value := stored]) else s
    case CommissionFact =>
      if f.payload.execId.Some? then s.(commissions := s.commissions[f.payload.execId.value := stored]) else s
    case _ =>
      var identity := Route(s.aliases, f);
      var current := Lookup(s.orders, identity, EMPTY_ORDER);
      s.(
        aliases := s.aliases[SlotOf(f) := identity],
        orders := s.orders[identity := MergeOrder(current, Incoming(f))],
        conflicts := s.conflicts + MergeConflicts(current, Incoming(f)))
  }

  function Fold(facts: seq<Fact>): ReducerState {
    if facts == [] then NEW_STATE else Step(Fold(facts[..|facts| - 1]), facts[|facts| - 1])
  }

  lemma RouteAgain(aliases: map<(int, int), Identity>, f: Fact)
    ensures Route(aliases[SlotOf(f) := Route(aliases, f)], f) == Route(aliases, f)
  {
  }

  lemma OrderStepTwice(s: ReducerState, f: Fact)
    requires IsOrderFact(f)
    ensures Step(Step(s, f), f) == Step(s, f)
  {
    var identity := Route(s.aliases, f);
    var current := Lookup(s.orders, identity, EMPTY_ORDER);
    var once := Step(s, f);
    MergeTwice(current, Incoming(f));
    RouteAgain(s.aliases, f);
    hide MergeOrder, MergeConflicts, Route, SlotOf, Incoming;
    assert once.orders[identity] == MergeOrder(current, Incoming(f));
    assert once.aliases[SlotOf(f) := identity] == once.aliases;
    assert once.orders[identity := MergeOrder(once.orders[identity], Incoming(f))] == once.orders;
    assert once.conflicts + MergeConflicts(once.orders[identity], Incoming(f)) == once.conflicts;
  }

  lemma PutTwice<K, V>(m: map<K, V>, k: K, v: V)
    ensures m[k := v][k := v] == m[k := v]
  {
  }

  lemma StoreTwice(s: ReducerState, f: Fact)
    requires !IsOrderFact(f)
    ensures Step(Step(s, f), f) == Step(s, f)
  {
    hide MergeOrder, MergeConflicts, Route, SlotOf, Incoming;
    var stored := Stored(f.payload, f.receivedAt);
    PutTwice(s.positions, f.identityKey, stored);
    PutTwice(s.accounts, f.identityKey, stored);
    if f.payload.execId.Some? {
      PutTwice(s.executions, f.payload.execId.value, stored);
      PutTwice(s.commissions, f.payload.execId.value, stored);
    }
  }

  /** A callback repeated right away is absorbed: it is routed to the same order and merged to the same fields. */
  lemma StepTwice(s: ReducerState, f: Fact)
    ensures Step(Step(s, f), f) == Step(s, f)
  {
    hide Step;
    if IsOrderFact(f) { OrderStepTwice(s, f); } else { StoreTwice(s, f); }
  }

  lemma {:induction false} FoldSqueezed(facts: seq<Fact>)
    ensures Fold(Squeeze(facts)) == Fold(facts)
  {
    hide Step;
    if |facts| > 1 {
      var n := |facts| - 1;
      FoldSqueezed(facts[..n]);
      if facts[n] == facts[n - 1] {
        assert facts[..n][..n - 1] == facts[..n - 1];
        StepTwice(Fold(facts[..n - 1]), facts[n]);
      } else {
        assert Squeeze(facts) == Squeeze(facts[..n]) + [facts[n]];
        assert Squeeze(facts)[..|Squeeze(facts)| - 1] == Squeeze(facts[..n]);
      }
    }
  }

  /* ---------- Executions and their corrections ---------- */

  function Digits(s: string): Option<nat> {
    if s == [] then None
    else
      var last := s[|s| - 1];
      if last < '0' || '9' < last then None
      else if |s| == 1 then Some((last - '0') as nat)
      else
        var front := Digits(s[..|s| - 1]);
        if front.None? then None else Some(front.value * 10 + (last - '0') as nat)
  }

  /** An integer literal: digits with an optional sign. */
  function ParseInt(s: string): Option<int> {
    if s != [] && s[0] == '-' then
      var n := Digits(s[1..]);
      if n.None? then None else Some(0 - (n.value as int))
    else if s != [] && s[0] == '+' then
      var n := Digits(s[1..]);
      if n.None? then None else Some(n.value as int)
    else
      var n := Digits(s);
      if n.None? then None else Some(n.value as int)
  }

  /** The position of the last dot. */
  function LastDot(s: string): (r: Option<nat>)
    ensures r.Some? ==> r.value < |s| && s[r.value] == '.' && forall i :: r.value < i < |s| ==> s[i] != '.'
    ensures r.None? ==> forall i :: 0 <= i < |s| ==> s[i] != '.'
  {
    if s == [] then None
    else if s[|s| - 1] == '.' then Some(|s| - 1)
    else LastDot(s[..|s| - 1])
  }

  /** An execution id with a numeric suffix is a revision of its root. */
  function ExecutionRevision(execId: string): (string, int) {
    match LastDot(execId)
    case None => (execId, 0)
    case Some(dot) =>
      match ParseInt(execId[dot + 1..])
      case None => (execId, 0)
      case Some(n) => (execId[..dot], n)
  }

  predicate VersionLeq(a: string, b: string) {
    var v, w := ExecutionRevision(a).1, ExecutionRevision(b).1;
    v < w || (v == w && StringLeq(a, b))
  }

  lemma VersionsOrdered(ids: set<string>)
    ensures Orders(VersionLeq, ids)
  {
    hide ExecutionRevision;
    forall a: string, b: string
      ensures VersionLeq(a, b) || VersionLeq(b, a)
      ensures VersionLeq(a, b) && VersionLeq(b, a) ==> a == b
    {
      StringTotal(a, b);
    }
    forall a: string, b: string, c: string | VersionLeq(a, b) && VersionLeq(b, c)
      ensures VersionLeq(a, c)
    {
      if StringLeq(a, b) && StringLeq(b, c) { StringTransitive(a, b, c); }
    }
  }

  function RootOf(execId: string): string { ExecutionRevision(execId).0 }

  function Roots(executions: map<string, Stored>): set<string> { set id | id in executions :: RootOf(id) }

  function Versions(executions: map<string, Stored>, root: string): set<string> {
    set id | id in executions && RootOf(id) == root
  }

  /** All revisions of a root, oldest first. */
  ghost function Corrections(executions: map<string, Stored>): map<string, seq<string>> {
    map root | root in Roots(executions) ::
      (VersionsOrdered(Versions(executions, root)); Listing(Versions(executions, root), VersionLeq))
  }

  lemma CorrectionsListed(executions: map<string, Stored>, root: string)
    requires root in Roots(executions)
    ensures Lists(Corrections(executions)[root], Versions(executions, root), VersionLeq)
    ensures Corrections(executions)[root] != []
  {
    VersionsOrdered(Versions(executions, root));
    var id :| id in executions && RootOf(id) == root;
    assert id in Versions(executions, root);
  }

  function Last(s: seq<string>): string
    requires s != []
  {
    s[|s| - 1]
  }

  /** Each root counts through its newest revision. */
  ghost function EffectiveIds(executions: map<string, Stored>): map<string, string> {
    map root | root in Roots(executions) :: (CorrectionsListed(executions, root); Last(Corrections(executions)[root]))
  }

  /* ---------- The read model ---------- */

  datatype ReadModel = ReadModel(
    session: string,
    orders: map<Identity, OrderFields>,
    executions: map<string, Stored>,
    corrections: map<string, seq<string>>,
    effectiveExecutions: map<string, Stored>,
    commissions: map<string, Stored>,
    effectiveCommissions: map<string, Stored>,
    positions: map<string, Stored>,
    accounts: map<string, Stored>,
    unmatchedCommissions: set<string>,
    missingCommissions: set<string>,
    correctedRoots: set<string>,
    conflicts: set<Conflict>)

  ghost function Finish(session: string, s: ReducerState): ReadModel {
    var effective := EffectiveIds(s.executions);
    ReadModel(
      session, s.orders, s.executions, Corrections(s.executions),
      (map root | root in effective && effective[root] in s.executions :: s.executions[effective[root]]),
      s.commissions,
      (map root | root in effective && effective[root] in s.commissions :: s.commissions[effective[root]]),
      s.positions, s.accounts,
      s.commissions.Keys - s.executions.Keys,
      effective.Values - s.commissions.Keys,
      (set root | root in Roots(s.executions) && |Corrections(s.executions)[root]| > 1),
      s.conflicts)
  }

  /** An execution or commission without an execution id. */
  predicate Malformed(f: Fact) { (f.kind == ExecutionFact || f.kind == CommissionFact) && f.payload.execId.None? }

  datatype ReduceResult = Reduced(model: ReadModel) | EmptyTape | MissingExecutionId

  ghost function Reduce(facts: seq<Fact>): ReduceResult {
    if facts == [] then EmptyTape
    else if exists f :: f in facts && Malformed(f) then MissingExecutionId
    else Reduced(Finish(facts[0].session, Fold(Sort(facts, FactLeq))))
  }

  predicate OneSession(facts: seq<Fact>) { forall i :: 0 <= i < |facts| ==> facts[i].session == facts[0].session }

  /** The result depends only on the set of facts: any order, any duplication. */
  lemma ReduceDependsOnSet(f: seq<Fact>, g: seq<Fact>)
    requires Elements(f) == Elements(g) && IdsNameFacts(Elements(f)) && OneSession(f) && OneSession(g)
    ensures Reduce(f) == Reduce(g)
  {
    hide Finish, Step, Fold, Sort, FactLeq, IdsNameFacts, Squeeze;
    if f == [] {
      if g != [] { HasElement(g); }
    } else {
      HasElement(f);
      assert g != [];
      assert g[0] in Elements(f) && f[0] in Elements(g);
      FactsOrdered(Elements(f));
      SameElementsSameListing(f, g, FactLeq);
      FoldSqueezed(Sort(f, FactLeq));
      FoldSqueezed(Sort(g, FactLeq));
      forall x: Fact
        ensures x in f <==> x in g
      {
        assert x in Elements(f) <==> x in f;
        assert x in Elements(g) <==> x in g;
      }
      assert (exists x :: x in f && Malformed(x)) == (exists x :: x in g && Malformed(x));
    }
  }

  /* ---------- Closed form of a merged order ---------- */

  /** The callbacks of one order, merged in turn. */
  function MergeAll(callbacks: seq<OrderFields>): OrderFields {
    if callbacks == [] then EMPTY_ORDER else MergeOrder(MergeAll(callbacks[..|callbacks| - 1]), callbacks[|callbacks| - 1])
  }

  function ConflictsAll(callbacks: seq<OrderFields>): set<Conflict> {
    if callbacks == [] then {}
    else
      var front, last := callbacks[..|callbacks| - 1], callbacks[|callbacks| - 1];
      ConflictsAll(front) + MergeConflicts(MergeAll(front), last)
  }

  /** The filled quantity is the greatest one reported, and never negative. */
  lemma {:induction false} FilledIsGreatest(callbacks: seq<OrderFields>)
    ensures var filled := Amount(MergeAll(callbacks).filled);
            && filled >= 0.0
            && (forall i :: 0 <= i < |callbacks| ==> Amount(callbacks[i].filled) <= filled)
            && (filled == 0.0 || exists i :: 0 <= i < |callbacks| && Amount(callbacks[i].filled) == filled)
  {
    if callbacks != [] {
      var n := |callbacks| - 1;
      FilledIsGreatest(callbacks[..n]);
      var before := Amount(MergeAll(callbacks[..n]).filled);
      if before > Amount(callbacks[n].filled) && before != 0.0 {
        var i :| 0 <= i < n && Amount(callbacks[..n][i].filled) == before;
        assert Amount(callbacks[i].filled) == before;
      }
      forall i | 0 <= i < n
        ensures Amount(callbacks[i].filled) <= before
      {
        assert callbacks[..n][i] == callbacks[i];
      }
    }
  }

  /** The remaining quantity is the least one reported. */
  lemma {:induction false} RemainingIsLeast(callbacks: seq<OrderFields>)
    ensures var remaining := MergeAll(callbacks).remaining;
            && (remaining.Val? <==> exists i :: 0 <= i < |callbacks| && callbacks[i].remaining.Val?)
            && (remaining.Val? ==>
                  && (forall i :: 0 <= i < |callbacks| && callbacks[i].remaining.Val? ==> remaining.value <= callbacks[i].remaining.value)
                  && exists i :: 0 <= i < |callbacks| && callbacks[i].remaining == remaining)
  {
    if callbacks != [] {
      var n := |callbacks| - 1;
      RemainingIsLeast(callbacks[..n]);
      var before, last := MergeAll(callbacks[..n]).remaining, callbacks[n].remaining;
      forall i | 0 <= i < n
        ensures callbacks[..n][i] == callbacks[i]
      {
      }
      if before.Val? {
        var i :| 0 <= i < n && callbacks[..n][i].remaining == before;
        assert callbacks[i].remaining == before;
      }
      if last.Val? { assert callbacks[n].remaining == last; }
    }
  }

  /** The status is one that was reported and has the greatest rank. */
  lemma {:induction false} StatusIsGreatest(callbacks: seq<OrderFields>)
    ensures var status := MergeAll(callbacks).status;
            && (forall i :: 0 <= i < |callbacks| ==> StatusRank(callbacks[i].status) <= StatusRank(status))
            && (if forall i :: 0 <= i < |callbacks| ==> callbacks[i].status.Absent? then status.Absent?
                else exists i :: 0 <= i < |callbacks| && callbacks[i].status == status && !status.Absent?)
  {
    if callbacks != [] {
      var n := |callbacks| - 1;
      var front := callbacks[..n];
      StatusIsGreatest(front);
      assert forall i :: 0 <= i < n ==> front[i] == callbacks[i];
      var before, last := MergeAll(front).status, callbacks[n].status;
      AbsentRanksLowest(before, last);
      hide StatusRank;
      if exists i :: 0 <= i < n && !front[i].status.Absent? {
        var i :| 0 <= i < n && front[i].status == before;
        assert callbacks[i].status == before;
      }
    }
  }

  lemma AbsentRanksLowest(current: Cell<string>, incoming: Cell<string>)
    ensures current.Absent? ==> StatusRank(current) == 0
    ensures var merged := MergeStatus(current, incoming);
            StatusRank(merged) >= StatusRank(current) && StatusRank(merged) >= StatusRank(incoming)
            && (merged == current || (merged == incoming && !incoming.Absent?))
            && (current.Absent? ==> merged == incoming)
  {
  }

  function IdOf(field: IdField, order: OrderFields): Cell<int> {
    match field
    case PermId => order.permId
    case ParentId => order.parentId
    case ClientId => order.clientId
  }

  /** The distinct non-zero ids reported. */
  function IdsSeen(field: IdField, callbacks: seq<OrderFields>): set<int> {
    set i | 0 <= i < |callbacks| && RealId(IdOf(field, callbacks[i])) :: IdOf(field, callbacks[i]).value
  }

  lemma IdsSeenStep(field: IdField, callbacks: seq<OrderFields>)
    requires callbacks != []
    ensures IdsSeen(field, callbacks) ==
            IdsSeen(field, callbacks[..|callbacks| - 1])
            + if RealId(IdOf(field, callbacks[|callbacks| - 1])) then {IdOf(field, callbacks[|callbacks| - 1]).value} else {}
  {
    var n := |callbacks| - 1;
    var front := callbacks[..n];
    forall v | v in IdsSeen(field, front)
      ensures v in IdsSeen(field, callbacks)
    {
      var i :| 0 <= i < n && RealId(IdOf(field, front[i])) && IdOf(field, front[i]).value == v;
      assert callbacks[i] == front[i];
    }
    forall v | v in IdsSeen(field, callbacks)
      ensures v in IdsSeen(field, front) || (RealId(IdOf(field, callbacks[n])) && v == IdOf(field, callbacks[n]).value)
    {
      var i :| 0 <= i <= n && RealId(IdOf(field, callbacks[i])) && IdOf(field, callbacks[i]).value == v;
      if i < n { assert front[i] == callbacks[i]; }
    }
  }

  /** Each id is the least non-zero one reported. */
  lemma {:induction false} IdIsLeast(field: IdField, callbacks: seq<OrderFields>)
    ensures var id := IdOf(field, MergeAll(callbacks));
            && (RealId(id) <==> IdsSeen(field, callbacks) != {})
            && (RealId(id) ==> id.value in IdsSeen(field, callbacks) && forall v :: v in IdsSeen(field, callbacks) ==> id.value <= v)
  {
    if callbacks != [] {
      IdIsLeast(field, callbacks[..|callbacks| - 1]);
      IdsSeenStep(field, callbacks);
      MergedId(field, MergeAll(callbacks[..|callbacks| - 1]), callbacks[|callbacks| - 1]);
      hide IdsSeen, MergeOrder, IdOf;
    }
  }

  lemma MergedId(field: IdField, current: OrderFields, incoming: OrderFields)
    ensures IdOf(field, MergeOrder(current, incoming)) == MergeId(IdOf(field, current), IdOf(field, incoming))
  {
  }

  predicate HasConflict(conflicts: set<Conflict>, field: IdField) { exists c :: c in conflicts && c.field == field }

  lemma IdConflictExactly(field: IdField, c: Cell<int>, i: Cell<int>)
    ensures IdConflict(field, c, i) != {} <==> RealId(c) && RealId(i) && c.value != i.value
  {
    if RealId(c) && RealId(i) && c.value != i.value {
      assert IdValues(c, i) == {c.value, i.value};
    } else {
      SmallValues(c, i);
    }
  }

  lemma ConflictsOfField(current: OrderFields, incoming: OrderFields, field: IdField, x: Conflict)
    ensures x in MergeConflicts(current, incoming) && x.field == field <==> x in IdConflict(field, IdOf(field, current), IdOf(field, incoming))
  {
    hide IdValues;
  }

  lemma ConflictStep(conflicts: set<Conflict>, current: OrderFields, incoming: OrderFields, field: IdField)
    ensures HasConflict(conflicts + MergeConflicts(current, incoming), field) <==>
            HasConflict(conflicts, field)
            || (RealId(IdOf(field, current)) && RealId(IdOf(field, incoming)) && IdOf(field, current).value != IdOf(field, incoming).value)
  {
    hide IdConflict, MergeConflicts, IdOf, RealId;
    var own := IdConflict(field, IdOf(field, current), IdOf(field, incoming));
    IdConflictExactly(field, IdOf(field, current), IdOf(field, incoming));
    forall x
      ensures x in MergeConflicts(current, incoming) && x.field == field <==> x in own
    {
      ConflictsOfField(current, incoming, field, x);
    }
    if own != {} {
      var x :| x in own;
      assert x in conflicts + MergeConflicts(current, incoming) && x.field == field;
    }
    if HasConflict(conflicts, field) {
      var x :| x in conflicts && x.field == field;
      assert x in conflicts + MergeConflicts(current, incoming);
    }
  }

  lemma SmallValues(c: Cell<int>, i: Cell<int>)
    requires !(RealId(c) && RealId(i) && c.value != i.value)
    ensures |IdValues(c, i)| <= 1
  {
    if RealId(c) {
      assert IdValues(c, i) == {c.value};
    } else if RealId(i) {
      assert IdValues(c, i) == {i.value};
    }
  }

  /** A conflict is recorded for a field exactly when two different non-zero ids were reported for it. */
  lemma {:induction false} ConflictExactly(field: IdField, callbacks: seq<OrderFields>)
    ensures HasConflict(ConflictsAll(callbacks), field)
            <==> exists v, w :: v in IdsSeen(field, callbacks) && w in IdsSeen(field, callbacks) && v != w
  {
    hide MergeConflicts, MergeOrder, IdOf, IdsSeen, HasConflict;
    if callbacks == [] {
      NoConflict(field);
    } else {
      var front, last := callbacks[..|callbacks| - 1], callbacks[|callbacks| - 1];
      ConflictExactly(field, front);
      IdIsLeast(field, front);
      IdsSeenStep(field, callbacks);
      ConflictStep(ConflictsAll(front), MergeAll(front), last, field);
    }
  }

  lemma NoConflict(field: IdField)
    ensures !HasConflict({}, field) && IdsSeen(field, []) == {}
  {
  }

  /* ---------- The folded state in closed form ---------- */

  /** The callbacks that the fold routes to one identity, in the order it sees them. */
  function Routed(facts: seq<Fact>, identity: Identity): seq<OrderFields> {
    if facts == [] then []
    else
      var front, last := facts[..|facts| - 1], facts[|facts| - 1];
      Routed(front, identity)
      + if IsOrderFact(last) && Route(Fold(front).aliases, last) == identity then [Incoming(last)] else []
  }

  lemma MergeAllMore(callbacks: seq<OrderFields>, last: OrderFields)
    ensures MergeAll(callbacks + [last]) == MergeOrder(MergeAll(callbacks), last)
    ensures ConflictsAll(callbacks + [last]) == ConflictsAll(callbacks) + MergeConflicts(MergeAll(callbacks), last)
  {
    assert (callbacks + [last])[..|callbacks|] == callbacks;
  }

  lemma StepOrders(s: ReducerState, f: Fact)
    ensures var current := Lookup(s.orders, Route(s.aliases, f), EMPTY_ORDER);
            && Step(s, f).orders == (if IsOrderFact(f) then s.orders[Route(s.aliases, f) := MergeOrder(current, Incoming(f))] else s.orders)
            && Step(s, f).conflicts == (if IsOrderFact(f) then s.conflicts + MergeConflicts(current, Incoming(f)) else s.conflicts)
  {
    hide MergeOrder, Route, MergeConflicts, SlotOf, Incoming, Lookup;
    if !IsOrderFact(f) {}
  }

  /** Each order of the state is the merge of exactly the callbacks routed to it. */
  lemma {:induction false} OrderIsMerge(facts: seq<Fact>, identity: Identity)
    ensures identity in Fold(facts).orders <==> Routed(facts, identity) != []
    ensures Lookup(Fold(facts).orders, identity, EMPTY_ORDER) == MergeAll(Routed(facts, identity))
  {
    hide MergeOrder, Route, MergeConflicts, SlotOf, Incoming, Step;
    if facts != [] {
      var front, last := facts[..|facts| - 1], facts[|facts| - 1];
      OrderIsMerge(front, identity);
      StepOrders(Fold(front), last);
      MergeAllMore(Routed(front, identity), Incoming(last));
      assert Fold(facts) == Step(Fold(front), last);
      if IsOrderFact(last) && Route(Fold(front).aliases, last) == identity {
        assert Fold(facts).orders[identity] == MergeOrder(MergeAll(Routed(front, identity)), Incoming(last));
        assert Routed(facts, identity) == Routed(front, identity) + [Incoming(last)];
      } else {
        assert Routed(facts, identity) == Routed(front, identity);
        assert Lookup(Fold(facts).orders, identity, EMPTY_ORDER) == Lookup(Fold(front).orders, identity, EMPTY_ORDER);
      }
    }
  }

  lemma RoutedMore(facts: seq<Fact>, identity: Identity)
    requires facts != []
    ensures var front, last := facts[..|facts| - 1], facts[|facts| - 1];
            ConflictsAll(Routed(facts, identity)) ==
            ConflictsAll(Routed(front, identity))
            + if IsOrderFact(last) && Route(Fold(front).aliases, last) == identity
              then MergeConflicts(MergeAll(Routed(front, identity)), Incoming(last)) else {}
  {
    hide MergeOrder, Route, MergeConflicts, SlotOf, Incoming, Step;
    var front, last := facts[..|facts| - 1], facts[|facts| - 1];
    MergeAllMore(Routed(front, identity), Incoming(last));
    if IsOrderFact(last) && Route(Fold(front).aliases, last) == identity {
      assert Routed(facts, identity) == Routed(front, identity) + [Incoming(last)];
    } else {
      assert Routed(facts, identity) == Routed(front, identity);
    }
  }

  lemma FoldConflictsMore(facts: seq<Fact>)
    requires facts != []
    ensures var front, last := facts[..|facts| - 1], facts[|facts| - 1];
            Fold(facts).conflicts ==
            Fold(front).conflicts
            + if IsOrderFact(last) then MergeConflicts(MergeAll(Routed(front, Route(Fold(front).aliases, last))), Incoming(last)) else {}
  {
    hide MergeOrder, Route, MergeConflicts, SlotOf, Incoming, Step;
    var front, last := facts[..|facts| - 1], facts[|facts| - 1];
    StepOrders(Fold(front), last);
    OrderIsMerge(front, Route(Fold(front).aliases, last));
    assert Fold(facts) == Step(Fold(front), last);
  }

  /** The conflicts of the state are exactly those of its orders. */
  lemma {:induction false} ConflictsAreOrders(facts: seq<Fact>, c: Conflict, identity: Identity)
    requires c in ConflictsAll(Routed(facts, identity))
    ensures c in Fold(facts).conflicts
  {
    hide MergeOrder, Route, MergeConflicts, SlotOf, Incoming, Step, Fold;
    if facts != [] {
      var front := facts[..|facts| - 1];
      RoutedMore(facts, identity);
      FoldConflictsMore(facts);
      if c in ConflictsAll(Routed(front, identity)) { ConflictsAreOrders(front, c, identity); }
    }
  }

  lemma {:induction false} ConflictHasOrder(facts: seq<Fact>, c: Conflict) returns (identity: Identity)
    requires c in Fold(facts).conflicts
    ensures c in ConflictsAll(Routed(facts, identity))
  {
    hide MergeOrder, Route, MergeConflicts, SlotOf, Incoming, Step, ConflictsAll, Routed;
    var front, last := facts[..|facts| - 1], facts[|facts| - 1];
    FoldConflictsMore(facts);
    if c in Fold(front).conflicts {
      identity := ConflictHasOrder(front, c);
    } else {
      identity := Route(Fold(front).aliases, last);
    }
    RoutedMore(facts, identity);
  }

  /* ---------- Corrections ---------- */

  /** The correction lists partition the executions. */
  lemma CorrectionsPartition(executions: map<string, Stored>, id: string)
    ensures id in executions ==> RootOf(id) in Corrections(executions) && id in Corrections(executions)[RootOf(id)]
    ensures forall root :: root in Corrections(executions) && id in Corrections(executions)[root] ==> id in executions && root == RootOf(id)
  {
    hide ExecutionRevision, RootOf;
    if id in executions {
      CorrectionsListed(executions, RootOf(id));
      assert id in Versions(executions, RootOf(id));
    }
    forall root | root in Corrections(executions) && id in Corrections(executions)[root]
      ensures id in executions && root == RootOf(id)
    {
      CorrectionsListed(executions, root);
      assert id in Elements(Corrections(executions)[root]);
    }
  }

  /** The effective execution of a root is its revision with the greatest (revision, id). */
  lemma EffectiveIsNewest(executions: map<string, Stored>, root: string)
    requires root in Roots(executions)
    ensures var newest := EffectiveIds(executions)[root];
            && newest in executions && RootOf(newest) == root
            && forall id :: id in executions && RootOf(id) == root ==> VersionLeq(id, newest)
  {
    hide VersionLeq, RootOf;
    CorrectionsListed(executions, root);
    VersionsOrdered(Versions(executions, root));
    var listed := Corrections(executions)[root];
    assert Last(listed) in Elements(listed);
    forall id | id in executions && RootOf(id) == root
      ensures VersionLeq(id, Last(listed))
    {
      assert id in Elements(listed);
      var i :| 0 <= i < |listed| && listed[i] == id;
    }
  }

  /* ---------- The reduced orders ---------- */

  /** What the read model says about one order, in terms of the callbacks routed to it. */
  ghost predicate ClosedForm(order: OrderFields, callbacks: seq<OrderFields>) {
    && (forall i :: 0 <= i < |callbacks| ==> Amount(callbacks[i].filled) <= Amount(order.filled))
    && (Amount(order.filled) == 0.0 || exists i :: 0 <= i < |callbacks| && Amount(callbacks[i].filled) == Amount(order.filled))
    && (order.remaining.Val? <==> exists i :: 0 <= i < |callbacks| && callbacks[i].remaining.Val?)
    && (order.remaining.Val? ==>
          && (exists i :: 0 <= i < |callbacks| && callbacks[i].remaining == order.remaining)
          && forall i :: 0 <= i < |callbacks| && callbacks[i].remaining.Val? ==> order.remaining.value <= callbacks[i].remaining.value)
    && (forall i :: 0 <= i < |callbacks| ==> StatusRank(callbacks[i].status) <= StatusRank(order.status))
    && (forall field ::
          var id := IdOf(field, order);
          && (RealId(id) <==> IdsSeen(field, callbacks) != {})
          && (RealId(id) ==> id.value in IdsSeen(field, callbacks) && forall v :: v in IdsSeen(field, callbacks) ==> id.value <= v))
  }

  lemma MergeAllClosedForm(callbacks: seq<OrderFields>)
    ensures Amount(MergeAll(callbacks).filled) >= 0.0 && ClosedForm(MergeAll(callbacks), callbacks)
  {
    FilledIsGreatest(callbacks);
    RemainingIsLeast(callbacks);
    StatusIsGreatest(callbacks);
    forall field
      ensures var id := IdOf(field, MergeAll(callbacks));
              && (RealId(id) <==> IdsSeen(field, callbacks) != {})
              && (RealId(id) ==> id.value in IdsSeen(field, callbacks) && forall v :: v in IdsSeen(field, callbacks) ==> id.value <= v)
    {
      IdIsLeast(field, callbacks);
    }
    hide MergeAll, IdsSeen, StatusRank, IdOf;
  }

  /** Two different non-zero ids were reported for the order. */
  ghost predicate Disagrees(field: IdField, callbacks: seq<OrderFields>) {
    exists v, w :: v in IdsSeen(field, callbacks) && w in IdsSeen(field, callbacks) && v != w
  }

  /** The closed form of every order of the read model, and exactly when a conflict is recorded. */
  lemma ReducedInClosedForm(facts: seq<Fact>, identity: Identity, field: IdField)
    requires Reduce(facts).Reduced?
    ensures var callbacks := Routed(Sort(facts, FactLeq), identity);
            && (identity in Reduce(facts).model.orders <==> callbacks != [])
            && (identity in Reduce(facts).model.orders ==> ClosedForm(Reduce(facts).model.orders[identity], callbacks))
    ensures HasConflict(Reduce(facts).model.conflicts, field)
            <==> exists other :: Disagrees(field, Routed(Sort(facts, FactLeq), other))
  {
    hide Sort, Fold, Routed, ClosedForm, MergeAll, Disagrees, Corrections, EffectiveIds, Roots, ConflictsAll;
    hide FactLeq, HasConflict;
    var sorted := Sort(facts, FactLeq);
    OrderIsMerge(sorted, identity);
    MergeAllClosedForm(Routed(sorted, identity));
    ConflictsSummed(sorted, field);
  }

  lemma ConflictsSummed(sorted: seq<Fact>, field: IdField)
    ensures HasConflict(Fold(sorted).conflicts, field) <==> exists other :: Disagrees(field, Routed(sorted, other))
  {
    hide Fold, Routed, IdsSeen, ConflictsAll;
    if HasConflict(Fold(sorted).conflicts, field) {
      var c :| c in Fold(sorted).conflicts && c.field == field;
      var other := ConflictHasOrder(sorted, c);
      assert HasConflict(ConflictsAll(Routed(sorted, other)), field);
      ConflictExactly(field, Routed(sorted, other));
    }
    forall other | Disagrees(field, Routed(sorted, other))
      ensures HasConflict(Fold(sorted).conflicts, field)
    {
      ConflictExactly(field, Routed(sorted, other));
      var c :| c in ConflictsAll(Routed(sorted, other)) && c.field == field;
      ConflictsAreOrders(sorted, c, other);
    }
  }

  /* ---------- The tape ---------- */

  /** By the time of receipt, then by id. */
  predicate ReceivedLeq(f: Fact, g: Fact) { f.receivedAt < g.receivedAt || (f.receivedAt == g.receivedAt && StringLeq(f.id, g.id)) }

  lemma ReceiptsOrdered(facts: set<Fact>)
    requires IdsNameFacts(facts)
    ensures Orders(ReceivedLeq, facts)
  {
    forall f, g | f in facts && g in facts
      ensures ReceivedLeq(f, g) || ReceivedLeq(g, f)
      ensures ReceivedLeq(f, g) && ReceivedLeq(g, f) ==> f == g
    {
      StringTotal(f.id, g.id);
    }
    forall f, g, h | f in facts && g in facts && h in facts && ReceivedLeq(f, g) && ReceivedLeq(g, h)
      ensures ReceivedLeq(f, h)
    {
      if StringLeq(f.id, g.id) && StringLeq(g.id, h.id) { StringTransitive(f.id, g.id, h.id); }
    }
  }

  /** The append-only tape of facts; the first fact of an id is kept. */
  class FactStore {
    var tape: map<string, Fact>

    predicate Valid()
      reads this
    {
      forall id :: id in tape ==> tape[id].id == id
    }

    constructor ()
      ensures Valid() && tape == map[]
    {
      tape := map[];
    }

    method Append(f: Fact)
      requires Valid()
      modifies this
      ensures Valid()
      ensures tape == if f.id in old(tape) then old(tape) else old(tape)[f.id := f]
    {
      if f.id !in tape { tape := tape[f.id := f]; }
    }

    /** The facts of one session by the time they were received; they have pairwise different ids. */
    method Facts(session: string) returns (facts: seq<Fact>)
      requires Valid()
      ensures Elements(facts) == (set id | id in tape && tape[id].session == session :: tape[id])
      ensures IdsNameFacts(Elements(facts)) && OneSession(facts) && Distinct(facts) && Sorted(facts, ReceivedLeq)
    {
      var found := SessionFacts(session);
      ReceiptsOrdered(Elements(found));
      SortLists(found, Elements(found), ReceivedLeq);
      facts := Sort(found, ReceivedLeq);
      forall i | 0 <= i < |facts|
        ensures facts[i].session == session
      {
        assert facts[i] in Elements(facts);
      }
    }

    method SessionFacts(session: string) returns (facts: seq<Fact>)
      requires Valid()
      ensures Elements(facts) == (set id | id in tape && tape[id].session == session :: tape[id])
      ensures IdsNameFacts(Elements(facts)) && Distinct(facts) && |Elements(facts)| == |facts|
    {
      facts := [];
      var pending := tape.Keys;
      while pending != {}
        invariant pending <= tape.Keys
        invariant forall f :: f in facts <==> f.id in tape && f.id !in pending && tape[f.id] == f && f.session == session
        invariant Distinct(facts)
        decreases pending
      {
        var id :| id in pending;
        pending := pending - {id};
        if tape[id].session == session { facts := facts + [tape[id]]; }
      }
      forall f
        ensures f in Elements(facts) <==> f in (set id | id in tape && tape[id].session == session :: tape[id])
      {
        assert f in Elements(facts) <==> f in facts;
      }
      DistinctSize(facts);
    }
  }
}
