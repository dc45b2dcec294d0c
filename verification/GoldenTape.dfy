/** The executable claim that a tape's read model does not depend on how its callbacks were delivered. Model
    hashes are compared as the models they hash. */
module GoldenTape {
  import opened ControlModels
  import opened FactReducer
  import opened FactReduction
  import opened Sorting

  datatype Transform =
    | CallbackReorder | DuplicateCallbacks | DelayedCommission | DelayedCorrection | RemoveRedundantStatus | OpenCompletedOverlap

  datatype TransformResult = TransformResult(name: Transform, applicable: bool, passed: bool)

  datatype Decision = Pass | BlockedTape

  datatype TapeReport = TapeReport(decision: Decision, transforms: seq<TransformResult>)

  function Reversed<T>(s: seq<T>): seq<T> { if s == [] then [] else [s[|s| - 1]] + Reversed(s[..|s| - 1]) }

  function Filter<T(!new)>(s: seq<T>, keep: T -> bool): seq<T> {
    if s == [] then [] else Filter(s[..|s| - 1], keep) + if keep(s[|s| - 1]) then [s[|s| - 1]] else []
  }

  function IsCommission(): Fact -> bool { (f: Fact) => f.kind == CommissionFact }

  /** The revision suffix of an execution id; 1 when there is none. */
  function SuffixRevision(execId: string): int {
    match LastDot(execId)
    case None => 1
    case Some(dot) => (match ParseInt(execId[dot + 1..]) case None => 1 case Some(n) => n)
  }

  function IsCorrection(): Fact -> bool {
    (f: Fact) => f.kind == ExecutionFact && SuffixRevision(if f.payload.execId.Some? then f.payload.execId.value else "") > 1
  }

  function HasOtherId(id: string): Fact -> bool { (f: Fact) => f.id != id }

  function Not(p: Fact -> bool): Fact -> bool { (f: Fact) => !p(f) }

  /** The selected callbacks arrive last, and in reverse. */
  function Delayed(facts: seq<Fact>, selected: Fact -> bool): seq<Fact> {
    Filter(facts, Not(selected)) + Reversed(Filter(facts, selected))
  }

  predicate CompletedFirst(f: Fact, g: Fact) {
    if (f.kind == CompletedOrder) != (g.kind == CompletedOrder) then f.kind == CompletedOrder else StringLeq(f.id, g.id)
  }

  /** What the greedy loop has retained after looking at the first n callbacks. */
  ghost function Retained(facts: seq<Fact>, n: nat, baseline: ReduceResult): seq<Fact>
    requires n <= |facts|
  {
    if n == 0 then facts
    else
      var before := Retained(facts, n - 1, baseline);
      var candidate := Filter(before, HasOtherId(facts[n - 1].id));
      if facts[n - 1].kind == OrderStatusFact && candidate != [] && Reduce(candidate) == baseline then candidate else before
  }

  ghost function TransformResultOf(name: Transform, facts: seq<Fact>, baseline: ReduceResult): TransformResult {
    TransformResult(name, true, Reduce(facts) == baseline)
  }

  ghost function ConditionalTransform(name: Transform, facts: seq<Fact>, selected: Fact -> bool, baseline: ReduceResult): TransformResult {
    if Filter(facts, selected) == [] then TransformResult(name, false, true)
    else TransformResultOf(name, Delayed(facts, selected), baseline)
  }

  ghost function OverlapTransform(facts: seq<Fact>, baseline: ReduceResult): TransformResult {
    if !((exists f :: f in facts && f.kind == OpenOrder) && (exists f :: f in facts && f.kind == CompletedOrder))
    then TransformResult(OpenCompletedOverlap, false, true)
    else TransformResultOf(OpenCompletedOverlap, Sort(facts, CompletedFirst), baseline)
  }

  /* ---------- The same set of facts ---------- */

  lemma {:induction false} ReversedElements<T>(s: seq<T>)
    ensures Elements(Reversed(s)) == Elements(s)
  {
    if s != [] {
      ReversedElements(s[..|s| - 1]);
      assert Elements(s) == Elements(s[..|s| - 1]) + {s[|s| - 1]};
      assert Elements(Reversed(s)) == {s[|s| - 1]} + Elements(Reversed(s[..|s| - 1]));
    }
  }

  lemma {:induction false} FilterElements<T(!new)>(s: seq<T>, keep: T -> bool)
    ensures Elements(Filter(s, keep)) == set x | x in Elements(s) && keep(x)
  {
    if s != [] {
      var rest, last := s[..|s| - 1], s[|s| - 1];
      FilterElements(rest, keep);
      assert Elements(s) == Elements(rest) + {last};
      assert Elements(Filter(s, keep)) == Elements(Filter(rest, keep)) + if keep(last) then {last} else {};
    }
  }

  lemma JoinElements<T>(s: seq<T>, t: seq<T>)
    ensures Elements(s + t) == Elements(s) + Elements(t)
  {
  }

  lemma DelayedElements(facts: seq<Fact>, selected: Fact -> bool)
    ensures Elements(Delayed(facts, selected)) == Elements(facts)
  {
    FilterElements(facts, selected);
    FilterElements(facts, Not(selected));
    ReversedElements(Filter(facts, selected));
    JoinElements(Filter(facts, Not(selected)), Reversed(Filter(facts, selected)));
  }

  /** A tape: the facts of one session, each id naming one fact. */
  ghost predicate IsTape(facts: seq<Fact>) { IdsNameFacts(Elements(facts)) && OneSession(facts) }

  lemma SameSetIsTape(facts: seq<Fact>, other: seq<Fact>)
    requires IsTape(facts) && Elements(other) == Elements(facts)
    ensures OneSession(other)
  {
    forall i | 0 <= i < |other|
      ensures other[i].session == other[0].session
    {
      assert other[i] in Elements(facts) && other[0] in Elements(facts);
    }
  }

  lemma Redelivered(facts: seq<Fact>, other: seq<Fact>)
    requires IsTape(facts) && Elements(other) == Elements(facts)
    ensures Reduce(other) == Reduce(facts)
  {
    SameSetIsTape(facts, other);
    ReduceDependsOnSet(facts, other);
  }

  /** Reordering, duplicating, delaying and overlapping callbacks never changes the read model of a tape. */
  lemma DeliveryTransformsPass(facts: seq<Fact>)
    requires IsTape(facts)
    ensures var baseline := Reduce(facts);
            && TransformResultOf(CallbackReorder, Reversed(facts), baseline).passed
            && TransformResultOf(DuplicateCallbacks, facts + facts, baseline).passed
            && ConditionalTransform(DelayedCommission, facts, IsCommission(), baseline).passed
            && ConditionalTransform(DelayedCorrection, facts, IsCorrection(), baseline).passed
            && OverlapTransform(facts, baseline).passed
  {
    hide Reduce, IsTape;
    ReversedElements(facts);
    Redelivered(facts, Reversed(facts));
    JoinElements(facts, facts);
    Redelivered(facts, facts + facts);
    DelayedElements(facts, IsCommission());
    Redelivered(facts, Delayed(facts, IsCommission()));
    DelayedElements(facts, IsCorrection());
    Redelivered(facts, Delayed(facts, IsCorrection()));
    SortElements(facts, CompletedFirst);
    Redelivered(facts, Sort(facts, CompletedFirst));
  }

  /** Whatever the greedy loop has removed so far, the retained callbacks still reduce to the baseline. */
  lemma {:induction false} RetainedReducesToBaseline(facts: seq<Fact>, n: nat)
    requires n <= |facts|
    ensures Reduce(Retained(facts, n, Reduce(facts))) == Reduce(facts)
    ensures Elements(Retained(facts, n, Reduce(facts))) <= Elements(facts)
    ensures forall f :: f in Elements(facts) && f.kind != OrderStatusFact && IdsNameFacts(Elements(facts)) ==> f in Elements(Retained(facts, n, Reduce(facts)))
  {
    hide Reduce;
    if n > 0 {
      RetainedReducesToBaseline(facts, n - 1);
      var before := Retained(facts, n - 1, Reduce(facts));
      FilterElements(before, HasOtherId(facts[n - 1].id));
      assert facts[n - 1] in Elements(facts);
    }
  }

  /* ---------- The evaluation ---------- */

  method SelectFacts(facts: seq<Fact>, selected: Fact -> bool) returns (r: seq<Fact>)
    ensures r == Filter(facts, selected)
  {
    r := [];
    for i := 0 to |facts|
      invariant r == Filter(facts[..i], selected)
    {
      assert facts[..i + 1][..i] == facts[..i];
      if selected(facts[i]) { r := r + [facts[i]]; }
    }
    assert facts[..|facts|] == facts;
  }

  method ConditionalResult(name: Transform, facts: seq<Fact>, selected: Fact -> bool, baseline: ReduceResult) returns (r: TransformResult)
    ensures r == ConditionalTransform(name, facts, selected, baseline)
  {
    var chosen := SelectFacts(facts, selected);
    if chosen == [] { return TransformResult(name, false, true); }
    var remainder := SelectFacts(facts, Not(selected));
    var model := ReduceFacts(remainder + Reversed(chosen));
    r := TransformResult(name, true, model == baseline);
  }

  /** Removes order statuses one at a time as long as the read model stays the same. */
  method RedundantStatusResult(facts: seq<Fact>, baseline: ReduceResult) returns (r: TransformResult)
    requires baseline == Reduce(facts)
    ensures r.name == RemoveRedundantStatus && r.passed
    ensures r.applicable <==> Retained(facts, |facts|, baseline) != facts
  {
    hide Reduce;
    var removable: seq<string> := [];
    var retained := facts;
    RetainedReducesToBaseline(facts, 0);
    for i := 0 to |facts|
      invariant retained == Retained(facts, i, baseline)
      invariant Reduce(retained) == baseline
      invariant |retained| <= |facts|
      invariant if removable == [] then retained == facts else |retained| < |facts|
    {
      if facts[i].kind == OrderStatusFact {
        var candidate := SelectFacts(retained, HasOtherId(facts[i].id));
        FilterShrinks(retained, HasOtherId(facts[i].id));
        if removable == [] { FilterDrops(facts, HasOtherId(facts[i].id), facts[i]); }
        if candidate != [] {
          var model := ReduceFacts(candidate);
          if model == baseline {
            retained := candidate;
            removable := removable + [facts[i].id];
          }
        }
      }
    }
    if removable == [] { return TransformResult(RemoveRedundantStatus, false, true); }
    var model := ReduceFacts(retained);
    r := TransformResult(RemoveRedundantStatus, true, model == baseline);
  }

  lemma {:induction false} FilterShrinks<T(!new)>(s: seq<T>, keep: T -> bool)
    ensures |Filter(s, keep)| <= |s|
  {
    if s != [] { FilterShrinks(s[..|s| - 1], keep); }
  }

  lemma {:induction false} FilterDrops<T(!new)>(s: seq<T>, keep: T -> bool, x: T)
    requires x in s && !keep(x)
    ensures |Filter(s, keep)| < |s|
  {
    var rest := s[..|s| - 1];
    FilterShrinks(rest, keep);
    if keep(s[|s| - 1]) {
      assert s == rest + [s[|s| - 1]];
      FilterDrops(rest, keep, x);
    }
  }

  method HasKind(facts: seq<Fact>, kind: FactType) returns (found: bool)
    ensures found <==> exists f :: f in facts && f.kind == kind
  {
    found := false;
    for i := 0 to |facts|
      invariant found <==> exists f :: f in facts[..i] && f.kind == kind
    {
      if facts[i].kind == kind {
        assert facts[i] in facts[..i + 1];
        found := true;
      }
    }
    assert facts[..|facts|] == facts;
  }

  /* ---------- Which transforms apply ---------- */

  lemma FilterEmptyExactly(facts: seq<Fact>, keep: Fact -> bool)
    ensures Filter(facts, keep) == [] <==> forall f :: f in facts ==> !keep(f)
  {
    FilterElements(facts, keep);
    assert forall f :: f in facts <==> f in Elements(facts);
    if Filter(facts, keep) != [] {
      assert Filter(facts, keep)[0] in Elements(Filter(facts, keep));
    }
    forall f | f in facts && keep(f)
      ensures Filter(facts, keep) != []
    {
      assert f in Elements(Filter(facts, keep));
    }
    hide Filter;
  }

  /** An execution whose id ends in a dot and an integer above one. */
  predicate Corrected(f: Fact) {
    f.kind == ExecutionFact && f.payload.execId.Some? && EndsAboveOne(f.payload.execId.value)
  }

  predicate EndsAboveOne(id: string) {
    exists dot :: 0 <= dot < |id| && id[dot] == '.' && '.' !in id[dot + 1..] && ParseInt(id[dot + 1..]).Some? && ParseInt(id[dot + 1..]).value > 1
  }

  lemma SuffixExactly(id: string)
    ensures SuffixRevision(id) > 1 <==> EndsAboveOne(id)
  {
    hide ParseInt;
    if LastDot(id).Some? {
      var dot := LastDot(id).value;
      assert '.' !in id[dot + 1..];
      forall other | 0 <= other < dot && id[other] == '.'
        ensures '.' in id[other + 1..]
      {
        assert id[other + 1..][dot - other - 1] == '.';
      }
    }
  }

  /** Delaying commissions applies to a tape with a commission, delaying corrections to one with a corrected execution,
      and the overlap to one with an open and a completed order. */
  lemma ApplicableExactly(facts: seq<Fact>, baseline: ReduceResult)
    ensures ConditionalTransform(DelayedCommission, facts, IsCommission(), baseline).applicable
            <==> exists f :: f in facts && f.kind == CommissionFact
    ensures ConditionalTransform(DelayedCorrection, facts, IsCorrection(), baseline).applicable <==> exists f :: f in facts && Corrected(f)
    ensures OverlapTransform(facts, baseline).applicable
            <==> (exists f :: f in facts && f.kind == OpenOrder) && (exists f :: f in facts && f.kind == CompletedOrder)
  {
    FilterEmptyExactly(facts, IsCommission());
    FilterEmptyExactly(facts, IsCorrection());
    forall f: Fact
      ensures IsCorrection()(f) <==> Corrected(f)
    {
      CorrectedExactly(f);
    }
    assert forall f: Fact :: IsCommission()(f) <==> f.kind == CommissionFact;
    ApplicableConditional(DelayedCommission, facts, IsCommission(), baseline);
    ApplicableConditional(DelayedCorrection, facts, IsCorrection(), baseline);
    ApplicableOverlap(facts, baseline);
    hide *;
  }

  lemma CorrectedExactly(f: Fact)
    ensures IsCorrection()(f) <==> Corrected(f)
  {
    SuffixExactly(if f.payload.execId.Some? then f.payload.execId.value else "");
    hide SuffixRevision, ParseInt;
  }

  lemma ApplicableConditional(name: Transform, facts: seq<Fact>, selected: Fact -> bool, baseline: ReduceResult)
    ensures ConditionalTransform(name, facts, selected, baseline).applicable <==> Filter(facts, selected) != []
  {
    hide Filter, Reduce, Delayed;
  }

  lemma ApplicableOverlap(facts: seq<Fact>, baseline: ReduceResult)
    ensures OverlapTransform(facts, baseline).applicable
            <==> (exists f :: f in facts && f.kind == OpenOrder) && (exists f :: f in facts && f.kind == CompletedOrder)
  {
    hide Sort, Reduce;
  }

  /** A tape passes exactly when its baseline has no conflicts: no transform can fail. */
  method EvaluateTape(facts: seq<Fact>) returns (report: Option<TapeReport>)
    requires IsTape(facts)
    ensures report.Some? <==> Reduce(facts).Reduced?
    ensures report.Some? ==> (report.value.decision == Pass <==> Reduce(facts).model.conflicts == {})
    ensures report.Some? ==> |report.value.transforms| == 6 && forall i :: 0 <= i < 6 ==> report.value.transforms[i].passed
    ensures report.Some? ==>
              && report.value.transforms[0] == TransformResult(CallbackReorder, true, true)
              && report.value.transforms[1] == TransformResult(DuplicateCallbacks, true, true)
              && report.value.transforms[2] == TransformResult(DelayedCommission, exists f :: f in facts && f.kind == CommissionFact, true)
              && report.value.transforms[3] == TransformResult(DelayedCorrection, exists f :: f in facts && Corrected(f), true)
              && report.value.transforms[4].name == RemoveRedundantStatus
              && report.value.transforms[5] ==
                 TransformResult(
                   OpenCompletedOverlap,
                   (exists f :: f in facts && f.kind == OpenOrder) && (exists f :: f in facts && f.kind == CompletedOrder),
                   true)
  {
    hide Reduce, IsTape, Corrected;
    ApplicableExactly(facts, Reduce(facts));
    var baseline := ReduceFacts(facts);
    if !baseline.Reduced? { return None; }
    DeliveryTransformsPass(facts);
    var reordered := ReduceFacts(Reversed(facts));
    var doubled := ReduceFacts(facts + facts);
    var commission := ConditionalResult(DelayedCommission, facts, IsCommission(), baseline);
    var correction := ConditionalResult(DelayedCorrection, facts, IsCorrection(), baseline);
    var redundant := RedundantStatusResult(facts, baseline);
    var hasOpen := HasKind(facts, OpenOrder);
    var hasCompleted := HasKind(facts, CompletedOrder);
    var overlap := TransformResult(OpenCompletedOverlap, false, true);
    if hasOpen && hasCompleted {
      var model := ReduceFacts(Sort(facts, CompletedFirst));
      overlap := TransformResult(OpenCompletedOverlap, true, model == baseline);
    }
    var transforms := [
      TransformResult(CallbackReorder, true, reordered == baseline),
      TransformResult(DuplicateCallbacks, true, doubled == baseline),
      commission, correction, redundant, overlap];
    var failed := false;
    for i := 0 to |transforms|
      invariant failed <==> exists j :: 0 <= j < i && !transforms[j].passed
    {
      if !transforms[i].passed { failed := true; }
    }
    var decision := if baseline.model.conflicts == {} && !failed then Pass else BlockedTape;
    report := Some(TapeReport(decision, transforms));
  }
}
