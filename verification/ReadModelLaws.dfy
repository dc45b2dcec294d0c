/** The rest of the read model: the fields of a merged order that the closed form leaves out, the tables of executions,
    commissions, positions and accounts, and what is derived from them. */
module ReadModelLaws {
  import opened ControlModels
  import opened FactReducer
  import opened Sorting

  /* ---------- Fields of which the last one reported counts ---------- */

  ghost predicate IsLastPresent<T>(callbacks: seq<OrderFields>, get: OrderFields -> Cell<T>, result: Cell<T>) {
    if forall i :: 0 <= i < |callbacks| ==> get(callbacks[i]).Absent? then result.Absent?
    else
      exists i :: 0 <= i < |callbacks| && !get(callbacks[i]).Absent? && get(callbacks[i]) == result
                  && forall j :: i < j < |callbacks| ==> get(callbacks[j]).Absent?
  }

  lemma {:induction false} LastPresent<T>(callbacks: seq<OrderFields>, get: OrderFields -> Cell<T>)
    requires get(EMPTY_ORDER).Absent?
    requires forall c, i :: get(MergeOrder(c, i)) == if get(i).Absent? then get(c) else get(i)
    ensures IsLastPresent(callbacks, get, get(MergeAll(callbacks)))
  {
    hide MergeOrder;
    if callbacks != [] {
      var n := |callbacks| - 1;
      var front, last := callbacks[..n], callbacks[n];
      LastPresent(front, get);
      assert get(MergeAll(callbacks)) == if get(last).Absent? then get(MergeAll(front)) else get(last);
      assert forall i :: 0 <= i < n ==> front[i] == callbacks[i];
      if get(last).Absent? && !get(MergeAll(front)).Absent? {
        var i :| 0 <= i < n && !get(front[i]).Absent? && get(front[i]) == get(MergeAll(front))
                 && forall j :: i < j < n ==> get(front[j]).Absent?;
        assert get(callbacks[i]) == get(MergeAll(callbacks)) && forall j :: i < j < |callbacks| ==> get(callbacks[j]).Absent?;
      }
    }
  }

  /** Another key of an order, absent if it is not there. */
  function OtherAt(key: string): OrderFields -> Cell<Digest> {
    (o: OrderFields) => if key in o.others then Val(o.others[key]) else Absent
  }

  lemma OtherMerged(current: OrderFields, incoming: OrderFields, key: string)
    ensures OtherAt(key)(MergeOrder(current, incoming)) ==
            if OtherAt(key)(incoming).Absent? then OtherAt(key)(current) else OtherAt(key)(incoming)
  {
  }

  lemma LastOther(callbacks: seq<OrderFields>, key: string)
    ensures IsLastPresent(callbacks, OtherAt(key), OtherAt(key)(MergeAll(callbacks)))
  {
    forall c, i
      ensures OtherAt(key)(MergeOrder(c, i)) == if OtherAt(key)(i).Absent? then OtherAt(key)(c) else OtherAt(key)(i)
    {
      OtherMerged(c, i, key);
    }
    hide MergeOrder, MergeAll, IsLastPresent;
    LastPresent(callbacks, OtherAt(key));
  }

  /** The average price is one that was reported, and no later callback that reports one has filled as much as some
      callback before it. */
  ghost predicate IsAverage(callbacks: seq<OrderFields>, average: Cell<real>) {
    average.Val? ==>
      exists i :: 0 <= i < |callbacks| && callbacks[i].avgFillPrice == average && Supersedes(callbacks, i)
  }

  ghost predicate Supersedes(callbacks: seq<OrderFields>, i: nat)
    requires i < |callbacks|
  {
    forall j :: i < j < |callbacks| ==> callbacks[j].avgFillPrice.Absent? || Amount(callbacks[j].filled) < Amount(MergeAll(callbacks[..j]).filled)
  }

  lemma AverageMerged(current: OrderFields, incoming: OrderFields)
    ensures MergeOrder(current, incoming).avgFillPrice ==
            if incoming.avgFillPrice.Absent? || (current.avgFillPrice.Val? && Amount(incoming.filled) < Amount(current.filled))
            then current.avgFillPrice else incoming.avgFillPrice
  {
  }

  lemma {:induction false} AverageExactly(callbacks: seq<OrderFields>)
    ensures IsAverage(callbacks, MergeAll(callbacks).avgFillPrice)
  {
    if callbacks != [] {
      hide MergeOrder;
      var n := |callbacks| - 1;
      var front, last := callbacks[..n], callbacks[n];
      AverageExactly(front);
      AverageMerged(MergeAll(front), last);
      var average := MergeAll(callbacks).avgFillPrice;
      if average.Val? {
        if last.avgFillPrice.Absent? || (MergeAll(front).avgFillPrice.Val? && Amount(last.filled) < Amount(MergeAll(front).filled)) {
          var i :| 0 <= i < n && front[i].avgFillPrice == average && Supersedes(front, i);
          SupersedesMore(callbacks, i);
          assert callbacks[i].avgFillPrice == average;
        } else {
          assert callbacks[n].avgFillPrice == average && Supersedes(callbacks, n);
        }
      }
    }
  }

  lemma SupersedesMore(callbacks: seq<OrderFields>, i: nat)
    requires i < |callbacks| - 1 && Supersedes(callbacks[..|callbacks| - 1], i)
    requires var last := callbacks[|callbacks| - 1];
             last.avgFillPrice.Absent? || Amount(last.filled) < Amount(MergeAll(callbacks[..|callbacks| - 1]).filled)
    ensures Supersedes(callbacks, i)
  {
    hide MergeAll;
    var n := |callbacks| - 1;
    forall j | i < j < |callbacks|
      ensures callbacks[j].avgFillPrice.Absent? || Amount(callbacks[j].filled) < Amount(MergeAll(callbacks[..j]).filled)
    {
      if j < n { assert callbacks[..n][j] == callbacks[j] && callbacks[..n][..j] == callbacks[..j]; }
    }
  }

  /** What the closed form of a merged order leaves out: its number, its reference, the time of its last callback, every
      other key, and its average price. */
  lemma OtherFieldsExactly(callbacks: seq<OrderFields>)
    ensures IsLastPresent(callbacks, (o: OrderFields) => o.orderId, MergeAll(callbacks).orderId)
    ensures IsLastPresent(callbacks, (o: OrderFields) => o.orderRef, MergeAll(callbacks).orderRef)
    ensures IsLastPresent(callbacks, (o: OrderFields) => o.receivedAt, MergeAll(callbacks).receivedAt)
    ensures forall key :: IsLastPresent(callbacks, OtherAt(key), OtherAt(key)(MergeAll(callbacks)))
    ensures IsAverage(callbacks, MergeAll(callbacks).avgFillPrice)
  {
    LastPresent(callbacks, (o: OrderFields) => o.orderId);
    LastPresent(callbacks, (o: OrderFields) => o.orderRef);
    LastPresent(callbacks, (o: OrderFields) => o.receivedAt);
    forall key
      ensures IsLastPresent(callbacks, OtherAt(key), OtherAt(key)(MergeAll(callbacks)))
    {
      LastOther(callbacks, key);
    }
    AverageExactly(callbacks);
  }

  /** The ranks of the statuses: four steps of a working order, three ways to end it without more fills, and Filled. */
  lemma RanksExactly(status: Cell<string>)
    ensures StatusRank(Absent) < StatusRank(Val("PendingSubmit")) < StatusRank(Val("PreSubmitted")) < StatusRank(Val("Submitted"))
                               < StatusRank(Val("PendingCancel")) < StatusRank(Val("Cancelled")) < StatusRank(Val("Filled"))
    ensures StatusRank(Val("Cancelled")) == StatusRank(Val("ApiCancelled")) == StatusRank(Val("Inactive"))
    ensures StatusRank(status) == StatusRank(Absent)
            <==> !(status.Val? && status.value in {"PendingSubmit", "PreSubmitted", "Submitted", "PendingCancel", "Cancelled", "ApiCancelled",
                                                   "Inactive", "Filled"})
  {
  }

  /* ---------- The tables ---------- */

  datatype Table = ExecutionTable | CommissionTable | PositionTable | AccountTable

  function TableOf(s: ReducerState, table: Table): map<string, Stored> {
    match table
    case ExecutionTable => s.executions
    case CommissionTable => s.commissions
    case PositionTable => s.positions
    case AccountTable => s.accounts
  }

  /** The fact belongs to this row of the table: executions and commissions by execution id, the others by key. */
  predicate Files(f: Fact, table: Table, key: string) {
    match table
    case ExecutionTable => f.kind == ExecutionFact && f.payload.execId == Some(key)
    case CommissionTable => f.kind == CommissionFact && f.payload.execId == Some(key)
    case PositionTable => f.kind == PositionFact && f.identityKey == key
    case AccountTable => f.kind == AccountValueFact && f.identityKey == key
  }

  /** The row a fact is stored under, if it is stored in this table. */
  function Filed(f: Fact, table: Table): Option<string> {
    match table
    case ExecutionTable => if f.kind == ExecutionFact then f.payload.execId else None
    case CommissionTable => if f.kind == CommissionFact then f.payload.execId else None
    case PositionTable => if f.kind == PositionFact then Some(f.identityKey) else None
    case AccountTable => if f.kind == AccountValueFact then Some(f.identityKey) else None
  }

  lemma FiledExactly(f: Fact, table: Table, key: string)
    ensures Files(f, table, key) <==> Filed(f, table) == Some(key)
  {
  }

  lemma StepExecutions(s: ReducerState, f: Fact)
    ensures Step(s, f).executions == if f.kind == ExecutionFact && f.payload.execId.Some? then s.executions[f.payload.execId.value := Stored(f.payload, f.receivedAt)] else s.executions
  {
    hide Route, MergeOrder, MergeConflicts, SlotOf;
  }

  lemma StepCommissions(s: ReducerState, f: Fact)
    ensures Step(s, f).commissions == if f.kind == CommissionFact && f.payload.execId.Some? then s.commissions[f.payload.execId.value := Stored(f.payload, f.receivedAt)] else s.commissions
  {
    hide Route, MergeOrder, MergeConflicts, SlotOf;
  }

  lemma StepPositions(s: ReducerState, f: Fact)
    ensures Step(s, f).positions == if f.kind == PositionFact then s.positions[f.identityKey := Stored(f.payload, f.receivedAt)] else s.positions
  {
    hide Route, MergeOrder, MergeConflicts, SlotOf;
  }

  lemma StepAccounts(s: ReducerState, f: Fact)
    ensures Step(s, f).accounts == if f.kind == AccountValueFact then s.accounts[f.identityKey := Stored(f.payload, f.receivedAt)] else s.accounts
  {
    hide Route, MergeOrder, MergeConflicts, SlotOf;
  }

  lemma StepStores(s: ReducerState, f: Fact, table: Table)
    ensures TableOf(Step(s, f), table) ==
            if Filed(f, table).Some? then TableOf(s, table)[Filed(f, table).value := Stored(f.payload, f.receivedAt)] else TableOf(s, table)
  {
    hide Step;
    StepExecutions(s, f);
    StepCommissions(s, f);
    StepPositions(s, f);
    StepAccounts(s, f);
  }

  lemma StepTable(s: ReducerState, f: Fact, table: Table, key: string)
    ensures var after := TableOf(Step(s, f), table);
            if Files(f, table, key) then key in after && after[key] == Stored(f.payload, f.receivedAt)
            else (key in after <==> key in TableOf(s, table)) && (key in after ==> after[key] == TableOf(s, table)[key])
  {
    hide Step, Files, Filed, TableOf;
    StepStores(s, f, table);
    FiledExactly(f, table, key);
  }

  /** The row holds the last fact that belongs to it. */
  ghost predicate IsLastFiled(facts: seq<Fact>, table: Table, key: string, rows: map<string, Stored>) {
    if forall i :: 0 <= i < |facts| ==> !Files(facts[i], table, key) then key !in rows
    else
      key in rows
      && exists i :: 0 <= i < |facts| && Files(facts[i], table, key) && rows[key] == Stored(facts[i].payload, facts[i].receivedAt)
                     && forall j :: i < j < |facts| ==> !Files(facts[j], table, key)
  }

  lemma {:induction false} FoldTable(facts: seq<Fact>, table: Table, key: string)
    ensures IsLastFiled(facts, table, key, TableOf(Fold(facts), table))
  {
    hide Step, Files, TableOf;
    if facts == [] {
      EmptyTable(table, key);
    } else {
      var n := |facts| - 1;
      var front := facts[..n];
      FoldTable(front, table, key);
      StepTable(Fold(front), facts[n], table, key);
      assert forall i :: 0 <= i < n ==> front[i] == facts[i];
      if !Files(facts[n], table, key) && key in TableOf(Fold(front), table) {
        var i :| 0 <= i < n && Files(front[i], table, key)
                 && TableOf(Fold(front), table)[key] == Stored(front[i].payload, front[i].receivedAt)
                 && forall j :: i < j < n ==> !Files(front[j], table, key);
        assert Files(facts[i], table, key) && forall j :: i < j < |facts| ==> !Files(facts[j], table, key);
      }
    }
  }

  lemma EmptyTable(table: Table, key: string)
    ensures key !in TableOf(Fold([]), table)
  {
  }

  /** The tables of the read model, over the sorted facts, and what is derived from them. */
  lemma TablesExactly(facts: seq<Fact>)
    requires Reduce(facts).Reduced?
    ensures var sorted, model := Sort(facts, FactLeq), Reduce(facts).model;
            && (forall key :: IsLastFiled(sorted, ExecutionTable, key, model.executions))
            && (forall key :: IsLastFiled(sorted, CommissionTable, key, model.commissions))
            && (forall key :: IsLastFiled(sorted, PositionTable, key, model.positions))
            && (forall key :: IsLastFiled(sorted, AccountTable, key, model.accounts))
  {
    hide Sort, Fold, Corrections, EffectiveIds, Roots, FactLeq, IsLastFiled;
    var sorted := Sort(facts, FactLeq);
    forall table, key
      ensures IsLastFiled(sorted, table, key, TableOf(Fold(sorted), table))
    {
      FoldTable(sorted, table, key);
    }
    assert TableOf(Fold(sorted), ExecutionTable) == Fold(sorted).executions && TableOf(Fold(sorted), CommissionTable) == Fold(sorted).commissions;
    assert TableOf(Fold(sorted), PositionTable) == Fold(sorted).positions && TableOf(Fold(sorted), AccountTable) == Fold(sorted).accounts;
  }

  /** Of a smaller revision, or of the same one and not after it by the id. */
  predicate NoNewer(other: string, id: string) {
    var r, q := ExecutionRevision(other).1, ExecutionRevision(id).1;
    r < q || (r == q && StringLeq(other, id))
  }

  lemma NoNewerExactly(other: string, id: string)
    ensures NoNewer(other, id) <==> VersionLeq(other, id)
  {
    hide ExecutionRevision;
  }

  /** The newest revision of a root. */
  ghost predicate Newest(executions: map<string, Stored>, root: string, id: string) {
    id in executions && RootOf(id) == root && forall other :: other in executions && RootOf(other) == root ==> NoNewer(other, id)
  }

  /** What is derived from the executions and commissions: each root counts through its newest revision, with that
      revision's commission; commissions without an execution and newest revisions without a commission are listed, and
      so are the roots with more than one revision. */
  lemma DerivedExactly(facts: seq<Fact>, root: string, id: string)
    requires Reduce(facts).Reduced?
    ensures var model := Reduce(facts).model;
            && (root in model.effectiveExecutions <==> exists other :: other in model.executions && RootOf(other) == root)
            && (Newest(model.executions, root, id) ==>
                  && model.effectiveExecutions[root] == model.executions[id]
                  && (root in model.effectiveCommissions <==> id in model.commissions)
                  && (id in model.commissions ==> model.effectiveCommissions[root] == model.commissions[id]))
            && (id in model.unmatchedCommissions <==> id in model.commissions && id !in model.executions)
            && (id in model.missingCommissions <==> Newest(model.executions, RootOf(id), id) && id !in model.commissions)
            && (root in model.correctedRoots <==>
                  exists one, other :: one in model.executions && other in model.executions && one != other && RootOf(one) == root == RootOf(other))
  {
    hide Sort, Fold, Corrections, Roots, FactLeq, RootOf, NoNewer, EffectiveIds;
    var executions := Reduce(facts).model.executions;
    RootsExactly(executions, root);
    EffectiveRoots(executions);
    if root in Roots(executions) { NewestIsEffective(executions, root, id); }
    if id in executions {
      RootsExactly(executions, RootOf(id));
      NewestIsEffective(executions, RootOf(id), id);
    }
    MissingExactly(executions, id);
    CorrectedExactly(executions, root);
  }

  lemma RootsExactly(executions: map<string, Stored>, root: string)
    ensures root in Roots(executions) <==> exists other :: other in executions && RootOf(other) == root
  {
    hide RootOf;
  }

  lemma EffectiveRoots(executions: map<string, Stored>)
    ensures EffectiveIds(executions).Keys == Roots(executions)
  {
    hide RootOf, Corrections;
  }

  lemma NewestIsEffective(executions: map<string, Stored>, root: string, id: string)
    requires root in Roots(executions)
    ensures root in EffectiveIds(executions) && EffectiveIds(executions)[root] in executions
    ensures Newest(executions, root, id) <==> EffectiveIds(executions)[root] == id
  {
    EffectiveRoots(executions);
    EffectiveIsNewest(executions, root);
    VersionsOrdered(executions.Keys);
    forall other, one
      ensures NoNewer(other, one) <==> VersionLeq(other, one)
    {
      NoNewerExactly(other, one);
    }
    hide RootOf, VersionLeq, NoNewer, EffectiveIds;
  }

  lemma MissingExactly(executions: map<string, Stored>, id: string)
    ensures id in EffectiveIds(executions).Values <==> Newest(executions, RootOf(id), id)
  {
    hide RootOf, NoNewer, EffectiveIds, Roots;
    EffectiveRoots(executions);
    if id in EffectiveIds(executions).Values {
      var root :| root in EffectiveIds(executions) && EffectiveIds(executions)[root] == id;
      NewestIsEffective(executions, root, id);
    }
    if Newest(executions, RootOf(id), id) {
      RootsExactly(executions, RootOf(id));
      NewestIsEffective(executions, RootOf(id), id);
    }
  }

  lemma CorrectedExactly(executions: map<string, Stored>, root: string)
    ensures root in Roots(executions) && |Corrections(executions)[root]| > 1
            <==> exists one, other :: one in executions && other in executions && one != other && RootOf(one) == root == RootOf(other)
  {
    hide RootOf, VersionLeq;
    if root in Roots(executions) {
      CorrectionsListed(executions, root);
      var listed := Corrections(executions)[root];
      if |listed| > 1 {
        assert listed[0] in Elements(listed) && listed[1] in Elements(listed) && listed[0] != listed[1];
      }
      if one, other :| one in executions && other in executions && one != other && RootOf(one) == root == RootOf(other) {
        assert one in Elements(listed) && other in Elements(listed);
        var i :| 0 <= i < |listed| && listed[i] == one;
        var j :| 0 <= j < |listed| && listed[j] == other;
      }
    }
  }

  /* ---------- Revisions ---------- */

  /** An id without a dot is its own root; one that ends in a dot and a number is a revision of what comes before the
      last dot; any other is its own root too. */
  lemma RevisionExactly(root: string, suffix: string)
    requires '.' !in suffix
    ensures '.' !in root ==> ExecutionRevision(root) == (root, 0)
    ensures var id := root + "." + suffix;
            ExecutionRevision(id) == (if ParseInt(suffix).Some? then (root, ParseInt(suffix).value) else (id, 0))
  {
    var id := root + "." + suffix;
    assert id[|root|] == '.' && id[..|root|] == root && id[|root| + 1..] == suffix;
    assert forall i :: |root| < i < |id| ==> id[i] == suffix[i - |root| - 1];
    assert LastDot(id) == Some(|root|);
  }

  /** A number is its digits in base ten. */
  lemma DigitsExactly(digits: string, last: char)
    ensures Digits("").None?
    ensures Digits(digits + [last]).Some? <==> '0' <= last <= '9' && (digits == "" || Digits(digits).Some?)
    ensures Digits(digits + [last]).Some? ==>
              Digits(digits + [last]).value == (if digits == "" then 0 else 10 * Digits(digits).value) + (last as int - '0' as int)
  {
    assert (digits + [last])[..|digits|] == digits;
  }

  /** A sign may come first. */
  lemma SignExactly(digits: string)
    requires digits != "" && digits[0] != '-' && digits[0] != '+'
    ensures ParseInt(digits) == (if Digits(digits).Some? then Some(Digits(digits).value as int) else None)
    ensures ParseInt("-" + digits) == (if Digits(digits).Some? then Some(-(Digits(digits).value as int)) else None)
    ensures ParseInt("+" + digits) == (if Digits(digits).Some? then Some(Digits(digits).value as int) else None)
  {
    hide Digits;
    assert ("-" + digits)[1..] == digits && ("+" + digits)[1..] == digits;
  }
}
