/** The exclusive allocation of evidence to scenario cases: greedy, in the order of artifact ids. */
module Allocation {
  import opened Sorting

  type Id = string
  type Time = int

  datatype ScenarioType = ClientIdSwitch | OtherScenario(name: string)

  datatype Scope = ApiScope | AllScope

  /** A scenario case document; `scopeHashes` and `clientIds` are how many of each it names. */
  datatype CaseDocument = CaseDocument(
    artifactId: Id,
    scenarioType: ScenarioType,
    scope: Scope,
    passing: bool,
    effectiveFrom: Time,
    expiresAt: Time,
    children: seq<Id>,
    receipts: seq<Id>,
    scopeHashes: nat,
    clientIds: nat)

  /** Validation refuses a case without child sessions. */
  type ScenarioCase = c: CaseDocument | c.children != []
    witness CaseDocument("", ClientIdSwitch, ApiScope, true, 0, 1, [""], [], 0, 0)

  /** What the evidence-set hash hashes. */
  datatype EvidenceSet = EvidenceSet(scenarioType: ScenarioType, children: multiset<Id>, receipts: multiset<Id>)

  function EvidenceOf(c: ScenarioCase): EvidenceSet { EvidenceSet(c.scenarioType, multiset(c.children), multiset(c.receipts)) }

  function Children(c: ScenarioCase): set<Id> { Elements(c.children) }

  function Receipts(c: ScenarioCase): set<Id> { Elements(c.receipts) }

  datatype Option<+T> = None | Some(value: T)

  /** The evaluation a case is allocated for; a missing corpus or receipt list is not enforced. */
  datatype Evaluation = Evaluation(scope: Scope, at: Time, corpus: Option<set<Id>>, cross: set<Id>, available: Option<set<Id>>)

  datatype RejectReason =
    | CaseScopeMismatch | CaseNotPassing | CaseOutsideValidity | DuplicateEvidenceSet | CrossScopeTopologyInvalid
    | ChildOutsideCorpus | ChildAlreadyAllocated | ReceiptAlreadyAllocated | ReceiptNotResolvable

  function If(condition: bool, reason: RejectReason): set<RejectReason> { if condition then {reason} else {} }

  /** The topology of a client switch: children from both corpora, and at least two scopes and clients. */
  predicate TopologyInvalid(c: ScenarioCase, current: set<Id>, cross: set<Id>) {
    !(Children(c) <= current + cross) || Children(c) * cross == {} || c.scopeHashes < 2 || c.clientIds < 2
  }

  /** The reasons that do not depend on what has been allocated before. */
  function StaticReasons(c: ScenarioCase, e: Evaluation): set<RejectReason> {
    If(c.scope != e.scope, CaseScopeMismatch)
    + If(!c.passing, CaseNotPassing)
    + If(!(c.effectiveFrom <= e.at <= c.expiresAt), CaseOutsideValidity)
    + (if e.corpus.None? then {}
       else if c.scenarioType == ClientIdSwitch then If(TopologyInvalid(c, e.corpus.value, e.cross), CrossScopeTopologyInvalid)
       else If(!(Children(c) <= e.corpus.value), ChildOutsideCorpus))
    + If(e.available.Some? && !(Receipts(c) <= e.available.value), ReceiptNotResolvable)
  }

  datatype Ledger = Ledger(
    accepted: seq<ScenarioCase>,
    sessions: set<Id>,
    receipts: set<Id>,
    evidence: set<EvidenceSet>,
    counts: map<ScenarioType, nat>,
    rejected: map<Id, set<RejectReason>>)

  const EMPTY := Ledger([], {}, {}, {}, map[], map[])

  function DynamicReasons(c: ScenarioCase, l: Ledger): set<RejectReason> {
    If(EvidenceOf(c) in l.evidence, DuplicateEvidenceSet)
    + If(Children(c) * l.sessions != {}, ChildAlreadyAllocated)
    + If(Receipts(c) * l.receipts != {}, ReceiptAlreadyAllocated)
  }

  function CountOf(counts: map<ScenarioType, nat>, t: ScenarioType): nat { if t in counts then counts[t] else 0 }

  function Consider(l: Ledger, c: ScenarioCase, e: Evaluation): Ledger {
    var reasons := StaticReasons(c, e) + DynamicReasons(c, l);
    if reasons != {} then l.(rejected := l.rejected[c.artifactId := reasons])
    else
      Ledger(
        l.accepted + [c], l.sessions + Children(c), l.receipts + Receipts(c), l.evidence + {EvidenceOf(c)},
        l.counts[c.scenarioType := CountOf(l.counts, c.scenarioType) + 1], l.rejected)
  }

  function AllocateAll(cases: seq<ScenarioCase>, e: Evaluation): Ledger {
    if cases == [] then EMPTY else Consider(AllocateAll(cases[..|cases| - 1], e), cases[|cases| - 1], e)
  }

  predicate CaseLeq(c: ScenarioCase, d: ScenarioCase) { StringLeq(c.artifactId, d.artifactId) }

  function Allocate(cases: seq<ScenarioCase>, e: Evaluation): Ledger { AllocateAll(Sort(cases, CaseLeq), e) }

  /* ---------- Exclusiveness and membership ---------- */

  predicate Eligible(c: ScenarioCase, e: Evaluation) { StaticReasons(c, e) == {} }

  predicate Disjoint(c: ScenarioCase, d: ScenarioCase) { Children(c) !! Children(d) && Receipts(c) !! Receipts(d) }

  predicate Exclusive(cases: seq<ScenarioCase>) {
    forall i, j :: 0 <= i < j < |cases| ==> Disjoint(cases[i], cases[j])
  }

  /** How many accepted cases have a type. */
  function Occurrences(cases: seq<ScenarioCase>, t: ScenarioType): nat {
    if cases == [] then 0
    else Occurrences(cases[..|cases| - 1], t) + if cases[|cases| - 1].scenarioType == t then 1 else 0
  }

  function AllChildren(cases: seq<ScenarioCase>): set<Id> {
    if cases == [] then {} else AllChildren(cases[..|cases| - 1]) + Children(cases[|cases| - 1])
  }

  function AllReceipts(cases: seq<ScenarioCase>): set<Id> {
    if cases == [] then {} else AllReceipts(cases[..|cases| - 1]) + Receipts(cases[|cases| - 1])
  }

  function AllEvidence(cases: seq<ScenarioCase>): set<EvidenceSet> {
    if cases == [] then {} else AllEvidence(cases[..|cases| - 1]) + {EvidenceOf(cases[|cases| - 1])}
  }

  /** What is consumed is exactly what the accepted cases use. */
  ghost predicate Consistent(l: Ledger, e: Evaluation) {
    && Exclusive(l.accepted)
    && (forall i :: 0 <= i < |l.accepted| ==> Eligible(l.accepted[i], e))
    && l.sessions == AllChildren(l.accepted)
    && l.receipts == AllReceipts(l.accepted)
    && l.evidence == AllEvidence(l.accepted)
    && (forall t :: CountOf(l.counts, t) == Occurrences(l.accepted, t))
  }

  /** The unions contain each case's part, and nothing else. */
  lemma {:induction false} UsesAreUsed(cases: seq<ScenarioCase>)
    ensures forall i :: 0 <= i < |cases| ==>
              Children(cases[i]) <= AllChildren(cases) && Receipts(cases[i]) <= AllReceipts(cases) && EvidenceOf(cases[i]) in AllEvidence(cases)
    ensures forall v :: v in AllEvidence(cases) ==> exists i :: 0 <= i < |cases| && EvidenceOf(cases[i]) == v
    ensures forall x :: x in AllChildren(cases) ==> exists i :: 0 <= i < |cases| && x in Children(cases[i])
    ensures forall x :: x in AllReceipts(cases) ==> exists i :: 0 <= i < |cases| && x in Receipts(cases[i])
  {
    hide Children, Receipts, EvidenceOf;
    if cases != [] {
      var rest := cases[..|cases| - 1];
      UsesAreUsed(rest);
      assert forall i :: 0 <= i < |rest| ==> rest[i] == cases[i];
    }
  }

  lemma Apart(s: set<Id>, t: set<Id>, all: set<Id>)
    requires s <= all && t * all == {}
    ensures s !! t
  {
    forall x | x in s
      ensures x !in t
    {
      assert x in t ==> x in t * all;
    }
  }

  lemma AcceptExclusive(cases: seq<ScenarioCase>, c: ScenarioCase)
    requires Exclusive(cases) && Children(c) * AllChildren(cases) == {} && Receipts(c) * AllReceipts(cases) == {}
    ensures Exclusive(cases + [c])
  {
    UsesAreUsed(cases);
    hide Children, Receipts, EvidenceOf;
    var after := cases + [c];
    forall i, j | 0 <= i < j < |after|
      ensures Disjoint(after[i], after[j])
    {
      if j < |cases| {
        assert Disjoint(cases[i], cases[j]);
      } else {
        assert after[i] == cases[i] && after[j] == c;
        Apart(Children(cases[i]), Children(c), AllChildren(cases));
        Apart(Receipts(cases[i]), Receipts(c), AllReceipts(cases));
      }
    }
  }

  lemma OneMore(cases: seq<ScenarioCase>, c: ScenarioCase)
    ensures AllChildren(cases + [c]) == AllChildren(cases) + Children(c)
    ensures AllReceipts(cases + [c]) == AllReceipts(cases) + Receipts(c)
    ensures AllEvidence(cases + [c]) == AllEvidence(cases) + {EvidenceOf(c)}
    ensures forall t :: Occurrences(cases + [c], t) == Occurrences(cases, t) + if c.scenarioType == t then 1 else 0
  {
    hide Children, Receipts, EvidenceOf;
    assert (cases + [c])[..|cases|] == cases;
  }

  lemma ConsiderConsistent(l: Ledger, c: ScenarioCase, e: Evaluation)
    requires Consistent(l, e)
    ensures Consistent(Consider(l, c, e), e)
  {
    hide StaticReasons, DynamicReasons, Children, Receipts, EvidenceOf, Exclusive, AllChildren, AllReceipts;
    hide AllEvidence, Occurrences;
    if StaticReasons(c, e) + DynamicReasons(c, l) == {} {
      assert DynamicReasons(c, l) == {} && StaticReasons(c, e) == {};
      NoReasons(c, l);
      AcceptExclusive(l.accepted, c);
      OneMore(l.accepted, c);
    }
  }

  lemma NoReasons(c: ScenarioCase, l: Ledger)
    requires DynamicReasons(c, l) == {}
    ensures EvidenceOf(c) !in l.evidence && Children(c) * l.sessions == {} && Receipts(c) * l.receipts == {}
  {
    hide EvidenceOf, Children, Receipts;
    assert DuplicateEvidenceSet !in DynamicReasons(c, l);
    assert ChildAlreadyAllocated !in DynamicReasons(c, l);
    assert ReceiptAlreadyAllocated !in DynamicReasons(c, l);
  }

  /** Accepted cases are eligible and pairwise disjoint in child sessions and event receipts; the counts are how
      many of each type were accepted. */
  lemma {:induction false} AllocationConsistent(cases: seq<ScenarioCase>, e: Evaluation)
    ensures Consistent(AllocateAll(cases, e), e)
  {
    if cases == [] {
    } else {
      AllocationConsistent(cases[..|cases| - 1], e);
      ConsiderConsistent(AllocateAll(cases[..|cases| - 1], e), cases[|cases| - 1], e);
      hide Consistent, Consider;
    }
  }

  /** Accepted evidence lies in the corpora that were supplied. */
  lemma AcceptedAreMembers(cases: seq<ScenarioCase>, e: Evaluation, i: nat)
    requires i < |Allocate(cases, e).accepted|
    ensures var c := Allocate(cases, e).accepted[i];
            && (e.available.Some? ==> Receipts(c) <= e.available.value)
            && (e.corpus.Some? && c.scenarioType != ClientIdSwitch ==> Children(c) <= e.corpus.value)
            && (e.corpus.Some? && c.scenarioType == ClientIdSwitch ==>
                  Children(c) <= e.corpus.value + e.cross && Children(c) * e.cross != {} && c.scopeHashes >= 2 && c.clientIds >= 2)
  {
    AllocationConsistent(Sort(cases, CaseLeq), e);
    var c := Allocate(cases, e).accepted[i];
    assert Eligible(c, e);
    hide Allocate, Consistent, Children, Receipts;
    EligibleMeans(c, e);
  }

  lemma EligibleMeans(c: ScenarioCase, e: Evaluation)
    requires Eligible(c, e)
    ensures e.available.Some? ==> Receipts(c) <= e.available.value
    ensures e.corpus.Some? ==> if c.scenarioType == ClientIdSwitch then !TopologyInvalid(c, e.corpus.value, e.cross) else Children(c) <= e.corpus.value
  {
    hide Children, Receipts, TopologyInvalid;
    assert ReceiptNotResolvable !in StaticReasons(c, e);
    assert CrossScopeTopologyInvalid !in StaticReasons(c, e);
    assert ChildOutsideCorpus !in StaticReasons(c, e);
  }

  /* ---------- Maximality ---------- */

  predicate Conflicts(c: ScenarioCase, d: ScenarioCase) { !Disjoint(c, d) }

  ghost predicate Covered(c: ScenarioCase, accepted: seq<ScenarioCase>) {
    exists i :: 0 <= i < |accepted| && Conflicts(c, accepted[i])
  }

  /** Equal evidence means equal, non-empty child sessions. */
  lemma SameEvidenceConflicts(c: ScenarioCase, d: ScenarioCase)
    requires EvidenceOf(c) == EvidenceOf(d)
    ensures Conflicts(c, d)
  {
    var x := c.children[0];
    assert x in multiset(c.children) && x in multiset(d.children);
    assert x in Children(c) && x in Children(d);
  }

  lemma SelfConflicts(c: ScenarioCase)
    ensures Conflicts(c, c)
  {
    SameEvidenceConflicts(c, c);
  }

  /** An eligible case is accepted or conflicts with one that was. */
  lemma ConsiderCovers(l: Ledger, c: ScenarioCase, e: Evaluation)
    requires Consistent(l, e) && Eligible(c, e)
    ensures Covered(c, Consider(l, c, e).accepted)
  {
    hide StaticReasons, Children, Receipts, EvidenceOf, Exclusive, AllChildren, AllReceipts, AllEvidence;
    hide Occurrences, Conflicts;
    UsesAreUsed(l.accepted);
    if DynamicReasons(c, l) == {} {
      SelfConflicts(c);
      assert Consider(l, c, e).accepted[|l.accepted|] == c;
    } else if EvidenceOf(c) in l.evidence {
      var i :| 0 <= i < |l.accepted| && EvidenceOf(l.accepted[i]) == EvidenceOf(c);
      SameEvidenceConflicts(c, l.accepted[i]);
    } else {
      SharedUseConflicts(c, l);
    }
  }

  lemma SharedUseConflicts(c: ScenarioCase, l: Ledger)
    requires l.sessions == AllChildren(l.accepted) && l.receipts == AllReceipts(l.accepted)
    requires Children(c) * l.sessions != {} || Receipts(c) * l.receipts != {}
    ensures Covered(c, l.accepted)
  {
    UsesAreUsed(l.accepted);
    hide Children, Receipts;
    if Children(c) * l.sessions != {} {
      var x :| x in Children(c) * l.sessions;
      var i :| 0 <= i < |l.accepted| && x in Children(l.accepted[i]);
      assert Conflicts(c, l.accepted[i]);
    } else {
      var x :| x in Receipts(c) * l.receipts;
      var i :| 0 <= i < |l.accepted| && x in Receipts(l.accepted[i]);
      assert Conflicts(c, l.accepted[i]);
    }
  }

  lemma CoveredStays(c: ScenarioCase, l: Ledger, d: ScenarioCase, e: Evaluation)
    requires Covered(c, l.accepted)
    ensures Covered(c, Consider(l, d, e).accepted)
  {
    hide Conflicts, StaticReasons, DynamicReasons;
    var i :| 0 <= i < |l.accepted| && Conflicts(c, l.accepted[i]);
    assert Conflicts(c, Consider(l, d, e).accepted[i]);
  }

  /** Every eligible case of the input conflicts with an accepted one, itself if it was accepted. */
  lemma {:induction false} EligibleAreCovered(cases: seq<ScenarioCase>, e: Evaluation, c: ScenarioCase)
    requires c in cases && Eligible(c, e)
    ensures Covered(c, AllocateAll(cases, e).accepted)
  {
    hide Consider, Consistent, Covered, Eligible;
    var rest, last := cases[..|cases| - 1], cases[|cases| - 1];
    if c in rest {
      EligibleAreCovered(rest, e, c);
      CoveredStays(c, AllocateAll(rest, e), last, e);
    } else {
      AllocationConsistent(rest, e);
      ConsiderCovers(AllocateAll(rest, e), last, e);
    }
  }

  /** The two laws for the allocation itself, which considers the cases in the order of their ids. */
  lemma AllocationLaws(cases: seq<ScenarioCase>, e: Evaluation, c: ScenarioCase)
    ensures Consistent(Allocate(cases, e), e)
    ensures c in cases && Eligible(c, e) ==> Covered(c, Allocate(cases, e).accepted)
  {
    hide Consistent, Covered, Eligible, Sort, AllocateAll;
    AllocationConsistent(Sort(cases, CaseLeq), e);
    SortElements(cases, CaseLeq);
    if c in cases && Eligible(c, e) {
      assert c in Elements(cases);
      EligibleAreCovered(Sort(cases, CaseLeq), e, c);
    }
  }

  /* ---------- The packing bound ---------- */

  datatype Item = Child(id: Id) | Receipt(id: Id)

  function Items(c: ScenarioCase): set<Item> {
    (set x | x in Children(c) :: Child(x)) + (set x | x in Receipts(c) :: Receipt(x))
  }

  function AllItems(cases: seq<ScenarioCase>): set<Item> {
    if cases == [] then {} else AllItems(cases[..|cases| - 1]) + Items(cases[|cases| - 1])
  }

  /** A family whose members each need their own item of s is no larger than s. */
  lemma {:induction false} Injection(family: set<ScenarioCase>, s: set<Item>)
    requires forall c :: c in family ==> Items(c) * s != {}
    requires forall c, d :: c in family && d in family && c != d ==> Items(c) * Items(d) == {}
    ensures |family| <= |s|
    decreases |family|
  {
    hide Items;
    if family != {} {
      var c :| c in family;
      var x :| x in Items(c) * s;
      forall d | d in family - {c}
        ensures Items(d) * (s - {x}) != {}
      {
        var y :| y in Items(d) * s;
        assert y !in Items(c) * Items(d);
        assert y in Items(d) * (s - {x});
      }
      Injection(family - {c}, s - {x});
    }
  }

  lemma SizeOfUnion<T>(s: set<T>, t: set<T>)
    ensures |s + t| <= |s| + |t|
  {
    assert |s + t| == |s| + |t| - |s * t|;
  }

  lemma {:induction false} AllItemsBounded(cases: seq<ScenarioCase>, m: nat)
    requires forall i :: 0 <= i < |cases| ==> |Items(cases[i])| <= m
    ensures |AllItems(cases)| <= m * |cases|
  {
    hide Items;
    if cases != [] {
      var rest := cases[..|cases| - 1];
      AllItemsBounded(rest, m);
      SizeOfUnion(AllItems(rest), Items(cases[|cases| - 1]));
      assert m * |cases| == m * |rest| + m;
    }
  }

  lemma {:induction false} AllItemsContain(cases: seq<ScenarioCase>, i: nat)
    requires i < |cases|
    ensures Items(cases[i]) <= AllItems(cases)
  {
    hide Items;
    if i < |cases| - 1 { AllItemsContain(cases[..|cases| - 1], i); }
  }

  lemma ConflictSharesItem(c: ScenarioCase, d: ScenarioCase)
    ensures Conflicts(c, d) <==> Items(c) * Items(d) != {}
  {
    hide Children, Receipts;
    if x :| x in Children(c) && x in Children(d) { assert Child(x) in Items(c) * Items(d); }
    if x :| x in Receipts(c) && x in Receipts(d) { assert Receipt(x) in Items(c) * Items(d); }
    if !Conflicts(c, d) { assert Items(c) * Items(d) == {}; }
  }

  /** Any family of eligible cases that could be allocated together is at most m times larger than what was
      accepted, where m bounds the child sessions and receipts of an accepted case. */
  lemma PackingBound(cases: seq<ScenarioCase>, e: Evaluation, family: set<ScenarioCase>, m: nat)
    requires forall c :: c in family ==> c in cases && Eligible(c, e)
    requires forall c, d :: c in family && d in family && c != d ==> Disjoint(c, d)
    requires forall i :: 0 <= i < |Allocate(cases, e).accepted| ==> |Items(Allocate(cases, e).accepted[i])| <= m
    ensures |family| <= m * |Allocate(cases, e).accepted|
  {
    hide Items, Eligible, Disjoint, Sort, AllocateAll;
    var accepted := Allocate(cases, e).accepted;
    SortElements(cases, CaseLeq);
    forall c | c in family
      ensures Items(c) * AllItems(accepted) != {}
    {
      assert c in Elements(cases);
      EligibleAreCovered(Sort(cases, CaseLeq), e, c);
      var i :| 0 <= i < |accepted| && Conflicts(c, accepted[i]);
      ConflictSharesItem(c, accepted[i]);
      AllItemsContain(accepted, i);
      var x :| x in Items(c) * Items(accepted[i]);
      assert x in Items(c) * AllItems(accepted);
    }
    forall c, d | c in family && d in family && c != d
      ensures Items(c) * Items(d) == {}
    {
      ConflictSharesItem(c, d);
    }
    Injection(family, AllItems(accepted));
    AllItemsBounded(accepted, m);
  }

  /* ---------- Independence of the input order ---------- */

  /** An artifact id hashes the whole case. */
  ghost predicate IdsNameCases(cases: set<ScenarioCase>) {
    forall c, d :: c in cases && d in cases && c.artifactId == d.artifactId ==> c == d
  }

  lemma OrderDoesNotMatter(cases: seq<ScenarioCase>, other: seq<ScenarioCase>, e: Evaluation)
    requires multiset(cases) == multiset(other) && IdsNameCases(Elements(cases))
    ensures Allocate(cases, e) == Allocate(other, e)
  {
    hide AllocateAll, Sort;
    assert Orders(CaseLeq, Elements(cases)) by {
      StringsOrdered(set c | c in Elements(cases) :: c.artifactId);
      hide StringLeq;
      forall c, d | c in Elements(cases) && d in Elements(cases)
        ensures CaseLeq(c, d) || CaseLeq(d, c)
        ensures CaseLeq(c, d) && CaseLeq(d, c) ==> c == d
      {
        StringTotal(c.artifactId, d.artifactId);
      }
      forall c, d, f | c in Elements(cases) && d in Elements(cases) && f in Elements(cases) && CaseLeq(c, d) && CaseLeq(d, f)
        ensures CaseLeq(c, f)
      {
        StringTransitive(c.artifactId, d.artifactId, f.artifactId);
      }
    }
    SortIgnoresOrder(cases, other, CaseLeq);
  }

  /* ---------- The loop ---------- */

  lemma AllocateMore(cases: seq<ScenarioCase>, i: nat, e: Evaluation)
    requires i < |cases|
    ensures AllocateAll(cases[..i + 1], e) == Consider(AllocateAll(cases[..i], e), cases[i], e)
  {
    assert cases[..i + 1][..i] == cases[..i];
  }

  /** One pass over the sorted cases, consuming sessions, receipts and evidence sets. */
  method AllocateScenarioCases(cases: seq<ScenarioCase>, e: Evaluation)
    returns (counts: map<ScenarioType, nat>, rejected: map<Id, set<RejectReason>>)
    ensures counts == Allocate(cases, e).counts && rejected == Allocate(cases, e).rejected
  {
    hide Children, Receipts, EvidenceOf, StaticReasons, DynamicReasons, Sort;
    var consumedSessions: set<Id> := {};
    var consumedReceipts: set<Id> := {};
    var consumedEvidence: set<EvidenceSet> := {};
    counts, rejected := map[], map[];
    var sorted := Sort(cases, CaseLeq);
    ghost var accepted: seq<ScenarioCase> := [];
    for i := 0 to |sorted|
      invariant Ledger(accepted, consumedSessions, consumedReceipts, consumedEvidence, counts, rejected) == AllocateAll(sorted[..i], e)
    {
      hide AllocateAll;
      var item := sorted[i];
      AllocateMore(sorted, i, e);
      var reasons := JudgeCase(item, e, consumedSessions, consumedReceipts, consumedEvidence, AllocateAll(sorted[..i], e));
      if reasons != {} {
        rejected := rejected[item.artifactId := reasons];
      } else {
        counts := counts[item.scenarioType := CountOf(counts, item.scenarioType) + 1];
        consumedSessions := consumedSessions + Children(item);
        consumedReceipts := consumedReceipts + Receipts(item);
        consumedEvidence := consumedEvidence + {EvidenceOf(item)};
        accepted := accepted + [item];
      }
    }
    assert sorted[..|sorted|] == sorted;
  }

  /** Collects the reasons against one case, given what has been consumed. */
  method JudgeCase(c: ScenarioCase, e: Evaluation, sessions: set<Id>, usedReceipts: set<Id>, evidence: set<EvidenceSet>, ghost l: Ledger)
    returns (reasons: set<RejectReason>)
    requires l.sessions == sessions && l.receipts == usedReceipts && l.evidence == evidence
    ensures reasons == StaticReasons(c, e) + DynamicReasons(c, l)
  {
    hide Children, Receipts, EvidenceOf, TopologyInvalid, If;
    reasons := If(c.scope != e.scope, CaseScopeMismatch);
    reasons := reasons + If(!c.passing, CaseNotPassing);
    reasons := reasons + If(!(c.effectiveFrom <= e.at <= c.expiresAt), CaseOutsideValidity);
    reasons := reasons + If(EvidenceOf(c) in evidence, DuplicateEvidenceSet);
    if e.corpus.Some? {
      if c.scenarioType == ClientIdSwitch {
        reasons := reasons + If(TopologyInvalid(c, e.corpus.value, e.cross), CrossScopeTopologyInvalid);
      } else {
        reasons := reasons + If(!(Children(c) <= e.corpus.value), ChildOutsideCorpus);
      }
    }
    reasons := reasons + If(Children(c) * sessions != {}, ChildAlreadyAllocated);
    reasons := reasons + If(Receipts(c) * usedReceipts != {}, ReceiptAlreadyAllocated);
    reasons := reasons + If(e.available.Some? && !(Receipts(c) <= e.available.value), ReceiptNotResolvable);
  }
}
