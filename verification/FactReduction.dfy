/** The reducer's loops, step by step over mutable tables. */
module FactReduction {
  import opened ControlModels
  import opened FactReducer
  import opened Sorting

  lemma ElementsAre<T>(s: seq<T>, t: seq<T>)
    requires Elements(s) == Elements(t)
    ensures forall x :: x in s <==> x in t
  {
    forall x
      ensures x in s <==> x in t
    {
      assert x in Elements(s) <==> x in s;
      assert x in Elements(t) <==> x in t;
    }
  }

  /** The conflicts of the first n id fields. */
  function FieldConflicts(fields: seq<IdField>, current: OrderFields, incoming: OrderFields): set<Conflict> {
    if fields == [] then {}
    else
      var field := fields[|fields| - 1];
      FieldConflicts(fields[..|fields| - 1], current, incoming) + IdConflict(field, IdOf(field, current), IdOf(field, incoming))
  }

  const ID_FIELDS := [PermId, ParentId, ClientId]

  lemma FieldConflictsMore(fields: seq<IdField>, field: IdField, current: OrderFields, incoming: OrderFields)
    ensures FieldConflicts(fields + [field], current, incoming) ==
            FieldConflicts(fields, current, incoming) + IdConflict(field, IdOf(field, current), IdOf(field, incoming))
  {
    assert (fields + [field])[..|fields|] == fields;
  }

  lemma AllFieldConflicts(current: OrderFields, incoming: OrderFields)
    ensures FieldConflicts(ID_FIELDS, current, incoming) == MergeConflicts(current, incoming)
  {
    hide IdConflict;
    FieldConflictsMore([], PermId, current, incoming);
    FieldConflictsMore([PermId], ParentId, current, incoming);
    FieldConflictsMore([PermId, ParentId], ClientId, current, incoming);
    assert [] + [PermId] == [PermId];
    assert [PermId] + [ParentId] == [PermId, ParentId];
    assert [PermId, ParentId] + [ClientId] == ID_FIELDS;
  }

  /** Every key of the later callback replaces the earlier one. */
  function Overlaid(current: OrderFields, incoming: OrderFields): OrderFields {
    OrderFields(
      Overlay(current.status, incoming.status), Overlay(current.filled, incoming.filled),
      Overlay(current.remaining, incoming.remaining), Overlay(current.avgFillPrice, incoming.avgFillPrice),
      Overlay(current.permId, incoming.permId), Overlay(current.parentId, incoming.parentId),
      Overlay(current.clientId, incoming.clientId), Overlay(current.orderId, incoming.orderId),
      Overlay(current.orderRef, incoming.orderRef), current.others + incoming.others,
      Overlay(current.receivedAt, incoming.receivedAt))
  }

  function WithId(field: IdField, order: OrderFields, id: int): OrderFields {
    match field
    case PermId => order.(permId := Val(id))
    case ParentId => order.(parentId := Val(id))
    case ClientId => order.(clientId := Val(id))
  }

  lemma Member<T>(values: set<T>) returns (x: T)
    requires values != {}
    ensures x in values
  {
    x :| x in values;
  }

  method LeastOf(values: set<int>) returns (least: int)
    requires values != {}
    ensures least in values && forall v :: v in values ==> least <= v
  {
    ghost var some := Member(values);
    least :| least in values;
    var pending := values - {least};
    while pending != {}
      invariant pending <= values && least in values
      invariant forall v :: v in values && v !in pending ==> least <= v
      decreases pending
    {
      ghost var other := Member(pending);
      var v :| v in pending;
      pending := pending - {v};
      if v < least { least := v; }
    }
  }

  /** The least of the real ids is what the merge keeps; without one the later key stays. */
  lemma LeastIsMerged(current: Cell<int>, incoming: Cell<int>, least: int)
    ensures IdValues(current, incoming) == {} ==> MergeId(current, incoming) == Overlay(current, incoming)
    ensures least in IdValues(current, incoming) && (forall v :: v in IdValues(current, incoming) ==> least <= v)
            ==> MergeId(current, incoming) == Val(least)
  {
    if RealId(current) { assert current.value in IdValues(current, incoming); }
    if RealId(incoming) { assert incoming.value in IdValues(current, incoming); }
  }

  /** Merges the three ids of an order and reports those that disagree. */
  method MergeIds(current: OrderFields, incoming: OrderFields, overlaid: OrderFields, conflicts: set<Conflict>)
    returns (merged: OrderFields, allConflicts: set<Conflict>)
    requires overlaid.permId == Overlay(current.permId, incoming.permId)
    requires overlaid.parentId == Overlay(current.parentId, incoming.parentId)
    requires overlaid.clientId == Overlay(current.clientId, incoming.clientId)
    ensures merged == overlaid.(
      permId := MergeId(current.permId, incoming.permId), parentId := MergeId(current.parentId, incoming.parentId),
      clientId := MergeId(current.clientId, incoming.clientId))
    ensures allConflicts == conflicts + MergeConflicts(current, incoming)
  {
    hide MergeConflicts, IdValues, MergeId, Overlay;
    merged, allConflicts := overlaid, conflicts;
    for i := 0 to |ID_FIELDS|
      invariant allConflicts == conflicts + FieldConflicts(ID_FIELDS[..i], current, incoming)
      invariant merged == overlaid.(
        permId := if i > 0 then MergeId(current.permId, incoming.permId) else overlaid.permId,
        parentId := if i > 1 then MergeId(current.parentId, incoming.parentId) else overlaid.parentId,
        clientId := if i > 2 then MergeId(current.clientId, incoming.clientId) else overlaid.clientId)
    {
      var field := ID_FIELDS[i];
      var values := IdValues(IdOf(field, current), IdOf(field, incoming));
      assert ID_FIELDS[..i + 1][..i] == ID_FIELDS[..i];
      if |values| > 1 { allConflicts := allConflicts + {Conflict(field, values)}; }
      if values != {} {
        var least := LeastOf(values);
        LeastIsMerged(IdOf(field, current), IdOf(field, incoming), least);
        merged := WithId(field, merged, least);
      } else {
        LeastIsMerged(IdOf(field, current), IdOf(field, incoming), 0);
      }
    }
    assert ID_FIELDS[..|ID_FIELDS|] == ID_FIELDS;
    AllFieldConflicts(current, incoming);
  }

  /** Merges one callback into an order, field by field, adding to the conflicts. */
  method MergeInto(current: OrderFields, incoming: OrderFields, conflicts: set<Conflict>)
    returns (merged: OrderFields, allConflicts: set<Conflict>)
    ensures merged == MergeOrder(current, incoming)
    ensures allConflicts == conflicts + MergeConflicts(current, incoming)
  {
    hide MergeConflicts, MergeId;
    merged := Overlaid(current, incoming);
    if StatusRank(current.status) > StatusRank(incoming.status) { merged := merged.(status := current.status); }
    var filledBefore, filledNow := Amount(current.filled), Amount(incoming.filled);
    merged := merged.(filled := Val(if filledBefore <= filledNow then filledNow else filledBefore));
    if current.remaining.Val? || incoming.remaining.Val? {
      var least := if current.remaining.Val? then current.remaining.value else incoming.remaining.value;
      if incoming.remaining.Val? && incoming.remaining.value < least { least := incoming.remaining.value; }
      merged := merged.(remaining := Val(least));
    }
    merged, allConflicts := MergeIds(current, incoming, merged, conflicts);
    if filledBefore > filledNow && current.avgFillPrice.Val? { merged := merged.(avgFillPrice := current.avgFillPrice); }
  }

  lemma FoldMore(sorted: seq<Fact>, i: nat)
    requires i < |sorted|
    ensures Fold(sorted[..i + 1]) == Step(Fold(sorted[..i]), sorted[i])
  {
    assert sorted[..i + 1][..i] == sorted[..i];
  }

  /** Step, fact by fact. */
  lemma StepCases(s: ReducerState, f: Fact)
    ensures var stored := Stored(f.payload, f.receivedAt);
            var identity := Route(s.aliases, f);
            var current := Lookup(s.orders, identity, EMPTY_ORDER);
            && (IsOrderFact(f) ==>
                  Step(s, f) == ReducerState(
                    s.orders[identity := MergeOrder(current, Incoming(f))], s.aliases[SlotOf(f) := identity],
                    s.executions, s.commissions, s.positions, s.accounts, s.conflicts + MergeConflicts(current, Incoming(f))))
            && (f.kind == ExecutionFact && f.payload.execId.Some? ==>
                  Step(s, f) == s.(executions := s.executions[f.payload.execId.value := stored]))
            && (f.kind == CommissionFact && f.payload.execId.Some? ==>
                  Step(s, f) == s.(commissions := s.commissions[f.payload.execId.value := stored]))
            && (f.kind == PositionFact ==> Step(s, f) == s.(positions := s.positions[f.identityKey := stored]))
            && (f.kind == AccountValueFact ==> Step(s, f) == s.(accounts := s.accounts[f.identityKey := stored]))
            && (f.kind.OtherFact? ==> Step(s, f) == s)
  {
    hide MergeOrder, MergeConflicts, Route, SlotOf, Incoming, Lookup;
  }

  /** The first loop: sorted facts into tables. */
  method FoldFacts(sorted: seq<Fact>) returns (state: Option<ReducerState>)
    ensures state.None? <==> exists f :: f in sorted && Malformed(f)
    ensures state.Some? ==> state.value == Fold(sorted)
  {
    hide MergeOrder, MergeConflicts, Route, SlotOf, Incoming, Lookup, Step, Fold;
    var orders: map<Identity, OrderFields> := map[];
    var aliases: map<(int, int), Identity> := map[];
    var executions: map<string, FactReducer.Stored> := map[];
    var commissions: map<string, FactReducer.Stored> := map[];
    var positions: map<string, FactReducer.Stored> := map[];
    var accounts: map<string, FactReducer.Stored> := map[];
    var conflicts: set<Conflict> := {};
    NothingFolded(sorted);
    for i := 0 to |sorted|
      invariant ReducerState(orders, aliases, executions, commissions, positions, accounts, conflicts) == Fold(sorted[..i])
      invariant forall f :: f in sorted[..i] ==> !Malformed(f)
    {
      var f := sorted[i];
      FoldMore(sorted, i);
      StepCases(Fold(sorted[..i]), f);
      assert f in sorted;
      if f.kind == OpenOrder || f.kind == CompletedOrder || f.kind == OrderStatusFact {
        var identity := Route(aliases, f);
        var current := Lookup(orders, identity, EMPTY_ORDER);
        aliases := aliases[SlotOf(f) := identity];
        var merged;
        merged, conflicts := MergeInto(current, Incoming(f), conflicts);
        orders := orders[identity := merged];
      } else if f.kind == ExecutionFact {
        if f.payload.execId.None? { return None; }
        executions := executions[f.payload.execId.value := Stored(f.payload, f.receivedAt)];
      } else if f.kind == CommissionFact {
        if f.payload.execId.None? { return None; }
        commissions := commissions[f.payload.execId.value := Stored(f.payload, f.receivedAt)];
      } else if f.kind == PositionFact {
        positions := positions[f.identityKey := Stored(f.payload, f.receivedAt)];
      } else if f.kind == AccountValueFact {
        accounts := accounts[f.identityKey := Stored(f.payload, f.receivedAt)];
      }
    }
    assert sorted[..|sorted|] == sorted;
    state := Some(ReducerState(orders, aliases, executions, commissions, positions, accounts, conflicts));
  }

  lemma NothingFolded(sorted: seq<Fact>)
    ensures Fold(sorted[..0]) == NEW_STATE
  {
  }

  /** The second loop: execution ids grouped by root. */
  method GroupByRoot(executions: map<string, FactReducer.Stored>) returns (groups: map<string, seq<string>>)
    ensures forall root :: root in groups <==> root in Roots(executions)
    ensures forall root :: root in groups ==> Distinct(groups[root]) && Elements(groups[root]) == Versions(executions, root)
  {
    hide ExecutionRevision, RootOf;
    groups := map[];
    var pending := executions.Keys;
    while pending != {}
      invariant pending <= executions.Keys
      invariant forall root :: root in groups <==> exists id :: id in executions && id !in pending && RootOf(id) == root
      invariant forall root :: root in groups ==> Distinct(groups[root])
      invariant forall root, id :: root in groups ==> (id in groups[root] <==> id in executions && id !in pending && RootOf(id) == root)
      decreases pending
    {
      var id :| id in pending;
      var root := RootOf(id);
      groups := groups[root := Lookup(groups, root, []) + [id]];
      pending := pending - {id};
    }
  }

  /** Each group is sorted by revision and id. */
  method GroupCorrections(executions: map<string, FactReducer.Stored>) returns (corrections: map<string, seq<string>>)
    ensures corrections == Corrections(executions)
  {
    hide ExecutionRevision, RootOf, VersionLeq, Roots, Versions;
    var groups := GroupByRoot(executions);
    corrections := map root | root in groups :: Sort(groups[root], VersionLeq);
    forall root | root in groups
      ensures root in Roots(executions) && corrections[root] == Corrections(executions)[root]
    {
      VersionsOrdered(Versions(executions, root));
      DistinctSize(groups[root]);
      SortLists(groups[root], Versions(executions, root), VersionLeq);
    }
  }

  /** The third loop: the newest revision of each root. */
  method PickEffective(ghost executions: map<string, FactReducer.Stored>, corrections: map<string, seq<string>>)
    returns (effective: map<string, string>)
    requires corrections == Corrections(executions)
    ensures effective == EffectiveIds(executions)
  {
    hide ExecutionRevision, RootOf, VersionLeq, EffectiveIds, Corrections;
    effective := map[];
    var pending := corrections.Keys;
    while pending != {}
      invariant pending <= corrections.Keys
      invariant effective.Keys == corrections.Keys - pending
      invariant forall root :: root in effective ==> root in EffectiveIds(executions) && effective[root] == EffectiveIds(executions)[root]
      decreases pending
    {
      var root :| root in pending;
      RootListed(executions, root);
      effective := effective[root := Last(corrections[root])];
      pending := pending - {root};
    }
    SameRoots(executions);
  }

  lemma SameRoots(executions: map<string, FactReducer.Stored>)
    ensures EffectiveIds(executions).Keys == Corrections(executions).Keys == Roots(executions)
  {
    hide ExecutionRevision, RootOf, VersionLeq;
  }

  method Finalize(session: string, s: ReducerState) returns (model: ReadModel)
    ensures model == Finish(session, s)
  {
    hide EffectiveIds, Corrections, Roots;
    var corrections := GroupCorrections(s.executions);
    var effective := PickEffective(s.executions, corrections);
    SameRoots(s.executions);
    model := ReadModel(
      session, s.orders, s.executions, corrections,
      (map root | root in effective && effective[root] in s.executions :: s.executions[effective[root]]),
      s.commissions,
      (map root | root in effective && effective[root] in s.commissions :: s.commissions[effective[root]]),
      s.positions, s.accounts,
      s.commissions.Keys - s.executions.Keys,
      effective.Values - s.commissions.Keys,
      (set root | root in corrections && |corrections[root]| > 1),
      s.conflicts);
    assert model.correctedRoots == (set root | root in Roots(s.executions) && |Corrections(s.executions)[root]| > 1);
  }

  lemma RootListed(executions: map<string, FactReducer.Stored>, root: string)
    requires root in Corrections(executions)
    ensures root in Roots(executions) && Corrections(executions)[root] != [] && root in EffectiveIds(executions)
    ensures EffectiveIds(executions)[root] == Last(Corrections(executions)[root])
  {
    CorrectionsListed(executions, root);
  }

  /** The whole reducer. */
  method ReduceFacts(facts: seq<Fact>) returns (r: ReduceResult)
    ensures r == Reduce(facts)
  {
    if facts == [] { return EmptyTape; }
    var sorted := Sort(facts, FactLeq);
    SortElements(facts, FactLeq);
    ElementsAre(sorted, facts);
    var state := FoldFacts(sorted);
    if state.None? { return MissingExecutionId; }
    var model := Finalize(facts[0].session, state.value);
    r := Reduced(model);
  }
}
