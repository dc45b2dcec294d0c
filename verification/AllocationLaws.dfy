/** Which cases the allocation accepts and what it says of the others, stated on the documents. */
module AllocationLaws {
  import opened Allocation
  import opened Sorting

  /* ---------- One case ---------- */

  predicate Shares(c: ScenarioCase, d: ScenarioCase, x: Id) { (x in c.children && x in d.children) || (x in c.receipts && x in d.receipts) }

  ghost predicate Collide(c: ScenarioCase, d: ScenarioCase) { exists x :: Shares(c, d, x) }

  /** The case is of the scope, passing and valid now; its children are in the corpus, for a client switch in either
      corpus with at least one of the other, two scopes and two clients; and its receipts are available. */
  ghost predicate Qualifies(c: ScenarioCase, e: Evaluation) { forall reason :: !Fails(c, e, reason) }

  /** The case alone gives this reason. */
  ghost predicate Fails(c: ScenarioCase, e: Evaluation, reason: RejectReason) {
    match reason
    case CaseScopeMismatch => c.scope != e.scope
    case CaseNotPassing => !c.passing
    case CaseOutsideValidity => e.at < c.effectiveFrom || c.expiresAt < e.at
    case CrossScopeTopologyInvalid =>
      e.corpus.Some? && c.scenarioType == ClientIdSwitch
      && ((exists x :: x in c.children && x !in e.corpus.value && x !in e.cross)
          || (forall x :: x in c.children ==> x !in e.cross) || c.scopeHashes < 2 || c.clientIds < 2)
    case ChildOutsideCorpus => e.corpus.Some? && c.scenarioType != ClientIdSwitch && exists x :: x in c.children && x !in e.corpus.value
    case ReceiptNotResolvable => e.available.Some? && exists x :: x in c.receipts && x !in e.available.value
    case DuplicateEvidenceSet => false
    case ChildAlreadyAllocated => false
    case ReceiptAlreadyAllocated => false
  }

  /** The case gives this reason against what was accepted before it. */
  ghost predicate Repeats(c: ScenarioCase, accepted: seq<ScenarioCase>, reason: RejectReason) {
    match reason
    case DuplicateEvidenceSet =>
      exists i :: 0 <= i < |accepted| && accepted[i].scenarioType == c.scenarioType
                  && multiset(accepted[i].children) == multiset(c.children) && multiset(accepted[i].receipts) == multiset(c.receipts)
    case ChildAlreadyAllocated => exists i, x :: 0 <= i < |accepted| && x in accepted[i].children && x in c.children
    case ReceiptAlreadyAllocated => exists i, x :: 0 <= i < |accepted| && x in accepted[i].receipts && x in c.receipts
    case _ => false
  }

  lemma FailsExactly(c: ScenarioCase, e: Evaluation, reason: RejectReason)
    ensures reason in StaticReasons(c, e) <==> Fails(c, e, reason)
  {
    assert forall x :: x in Children(c) <==> x in c.children;
    assert forall x :: x in Receipts(c) <==> x in c.receipts;
    hide Children, Receipts;
    if e.corpus.Some? {
      OutsideExactly(Children(c), e.corpus.value + e.cross);
      OutsideExactly(Children(c), e.corpus.value);
      MeetExactly(Children(c), e.cross);
    }
    if e.available.Some? { OutsideExactly(Receipts(c), e.available.value); }
  }

  lemma OutsideExactly(s: set<Id>, all: set<Id>)
    ensures s <= all <==> !exists x :: x in s && x !in all
  {
  }

  lemma MeetExactly(s: set<Id>, t: set<Id>)
    ensures s * t != {} <==> exists x :: x in s && x in t
  {
    if x :| x in s && x in t { assert x in s * t; }
  }

  lemma SameEvidenceExactly(c: ScenarioCase, d: ScenarioCase)
    ensures EvidenceOf(c) == EvidenceOf(d)
            <==> c.scenarioType == d.scenarioType && multiset(c.children) == multiset(d.children) && multiset(c.receipts) == multiset(d.receipts)
  {
  }

  lemma DuplicateExactly(c: ScenarioCase, accepted: seq<ScenarioCase>)
    ensures EvidenceOf(c) in AllEvidence(accepted) <==> Repeats(c, accepted, DuplicateEvidenceSet)
  {
    UsesAreUsed(accepted);
    forall d
      ensures EvidenceOf(d) == EvidenceOf(c)
              <==> d.scenarioType == c.scenarioType && multiset(d.children) == multiset(c.children) && multiset(d.receipts) == multiset(c.receipts)
    {
      SameEvidenceExactly(d, c);
    }
    hide EvidenceOf, AllEvidence, Children, Receipts, AllChildren, AllReceipts;
  }

  lemma UsedExactly(c: ScenarioCase, accepted: seq<ScenarioCase>)
    ensures Children(c) * AllChildren(accepted) != {} <==> Repeats(c, accepted, ChildAlreadyAllocated)
    ensures Receipts(c) * AllReceipts(accepted) != {} <==> Repeats(c, accepted, ReceiptAlreadyAllocated)
  {
    UsesAreUsed(accepted);
    MeetExactly(Children(c), AllChildren(accepted));
    MeetExactly(Receipts(c), AllReceipts(accepted));
    hide EvidenceOf, AllEvidence, AllChildren, AllReceipts;
    if x :| x in Children(c) && x in AllChildren(accepted) {
      var i :| 0 <= i < |accepted| && x in Children(accepted[i]);
      assert x in accepted[i].children && x in c.children;
    }
    if x :| x in Receipts(c) && x in AllReceipts(accepted) {
      var i :| 0 <= i < |accepted| && x in Receipts(accepted[i]);
      assert x in accepted[i].receipts && x in c.receipts;
    }
    if i, x :| 0 <= i < |accepted| && x in accepted[i].children && x in c.children {
      assert x in Children(accepted[i]) && x in Children(c);
    }
    if i, x :| 0 <= i < |accepted| && x in accepted[i].receipts && x in c.receipts {
      assert x in Receipts(accepted[i]) && x in Receipts(c);
    }
  }

  lemma RepeatsExactly(c: ScenarioCase, l: Ledger, e: Evaluation, reason: RejectReason)
    requires Consistent(l, e)
    ensures reason in DynamicReasons(c, l) <==> Repeats(c, l.accepted, reason)
  {
    DuplicateExactly(c, l.accepted);
    UsedExactly(c, l.accepted);
    OnlyThree(c, l, reason);
    NoOthers(c, l.accepted, reason);
    hide Repeats, Children, Receipts, EvidenceOf, AllChildren, AllReceipts, AllEvidence, Occurrences, Exclusive, Eligible, DynamicReasons;
  }

  lemma OnlyThree(c: ScenarioCase, l: Ledger, reason: RejectReason)
    ensures reason in DynamicReasons(c, l) <==>
            || (reason == DuplicateEvidenceSet && EvidenceOf(c) in l.evidence)
            || (reason == ChildAlreadyAllocated && Children(c) * l.sessions != {})
            || (reason == ReceiptAlreadyAllocated && Receipts(c) * l.receipts != {})
  {
    hide Children, Receipts, EvidenceOf;
  }

  lemma NoOthers(c: ScenarioCase, accepted: seq<ScenarioCase>, reason: RejectReason)
    ensures Repeats(c, accepted, reason) ==> reason in {DuplicateEvidenceSet, ChildAlreadyAllocated, ReceiptAlreadyAllocated}
  {
  }

  /* ---------- The whole pass ---------- */

  ghost predicate Avoids(accepted: seq<ScenarioCase>, c: ScenarioCase) { forall i :: 0 <= i < |accepted| ==> !Collide(accepted[i], c) }

  /** The case qualifies and collides with no earlier one that is taken. */
  ghost predicate Takes(cases: seq<ScenarioCase>, e: Evaluation, i: nat)
    requires i < |cases|
    decreases i
  {
    Qualifies(cases[i], e) && forall j :: 0 <= j < i && Takes(cases, e, j) ==> !Collide(cases[j], cases[i])
  }

  /** The taken ones of the first n, in order. */
  ghost function Taken(cases: seq<ScenarioCase>, e: Evaluation, n: nat): seq<ScenarioCase>
    requires n <= |cases|
  {
    if n == 0 then [] else Taken(cases, e, n - 1) + if Takes(cases, e, n - 1) then [cases[n - 1]] else []
  }

  lemma {:induction false} TakenAreTaken(cases: seq<ScenarioCase>, e: Evaluation, n: nat, c: ScenarioCase)
    requires n <= |cases|
    ensures c in Taken(cases, e, n) <==> exists i :: 0 <= i < n && Takes(cases, e, i) && cases[i] == c
  {
    hide Takes;
    if n > 0 { TakenAreTaken(cases, e, n - 1, c); }
  }

  /** A case without a reason is one that is taken. */
  lemma NoReasonExactly(c: ScenarioCase, l: Ledger, e: Evaluation)
    requires Consistent(l, e)
    ensures StaticReasons(c, e) + DynamicReasons(c, l) == {} <==>
            Qualifies(c, e) && Avoids(l.accepted, c)
  {
    forall reason
      ensures reason in StaticReasons(c, e) <==> Fails(c, e, reason)
      ensures reason in DynamicReasons(c, l) <==> Repeats(c, l.accepted, reason)
    {
      FailsExactly(c, e, reason);
      RepeatsExactly(c, l, e, reason);
    }
    hide StaticReasons, DynamicReasons, Fails, Consistent;
    if !Avoids(l.accepted, c) {
      var i :| 0 <= i < |l.accepted| && Collide(l.accepted[i], c);
      var x :| Shares(l.accepted[i], c, x);
      assert Repeats(c, l.accepted, ChildAlreadyAllocated) || Repeats(c, l.accepted, ReceiptAlreadyAllocated);
    } else {
      forall reason
        ensures !Repeats(c, l.accepted, reason)
      {
        if Repeats(c, l.accepted, reason) { RepeatCollides(c, l.accepted, reason); }
      }
      assert StaticReasons(c, e) + DynamicReasons(c, l) == {} <==> Qualifies(c, e) by {
        if StaticReasons(c, e) + DynamicReasons(c, l) == {} {
          forall reason
            ensures !Fails(c, e, reason)
          {
            assert reason !in StaticReasons(c, e) + DynamicReasons(c, l);
          }
        }
      }
    }
  }

  lemma RepeatCollides(c: ScenarioCase, accepted: seq<ScenarioCase>, reason: RejectReason)
    requires Repeats(c, accepted, reason)
    ensures exists i :: 0 <= i < |accepted| && Collide(accepted[i], c)
  {
    match reason
    case DuplicateEvidenceSet =>
      var i :| 0 <= i < |accepted| && accepted[i].scenarioType == c.scenarioType
               && multiset(accepted[i].children) == multiset(c.children) && multiset(accepted[i].receipts) == multiset(c.receipts);
      assert c.children[0] in multiset(c.children) && c.children[0] in multiset(accepted[i].children);
      assert Shares(accepted[i], c, c.children[0]);
      assert Collide(accepted[i], c);
    case ChildAlreadyAllocated =>
      var i, x :| 0 <= i < |accepted| && x in accepted[i].children && x in c.children;
      assert Shares(accepted[i], c, x);
      assert Collide(accepted[i], c);
    case ReceiptAlreadyAllocated =>
      var i, x :| 0 <= i < |accepted| && x in accepted[i].receipts && x in c.receipts;
      assert Shares(accepted[i], c, x);
      assert Collide(accepted[i], c);
  }

  lemma {:induction false} AcceptsExactly(cases: seq<ScenarioCase>, e: Evaluation, n: nat)
    requires n <= |cases|
    ensures AllocateAll(cases[..n], e).accepted == Taken(cases, e, n)
  {
    if n > 0 {
      AcceptsExactly(cases, e, n - 1);
      AllocateMore(cases, n - 1, e);
      AllocationConsistent(cases[..n - 1], e);
      var l, c := AllocateAll(cases[..n - 1], e), cases[n - 1];
      NoReasonExactly(c, l, e);
      TakesExactly(cases, e, n - 1);
      Considered(l, c, e);
      assert Taken(cases, e, n) == Taken(cases, e, n - 1) + if Takes(cases, e, n - 1) then [c] else [];
      hide *;
    }
  }

  lemma Considered(l: Ledger, c: ScenarioCase, e: Evaluation)
    ensures var reasons, after := StaticReasons(c, e) + DynamicReasons(c, l), Consider(l, c, e);
            && (reasons == {} ==> after.accepted == l.accepted + [c] && after.rejected == l.rejected)
            && (reasons != {} ==> after.accepted == l.accepted && after.rejected == l.rejected[c.artifactId := reasons])
  {
    hide StaticReasons, DynamicReasons, Children, Receipts, EvidenceOf;
  }

  lemma TakesExactly(cases: seq<ScenarioCase>, e: Evaluation, n: nat)
    requires n < |cases|
    ensures Takes(cases, e, n) <==> Qualifies(cases[n], e) && Avoids(Taken(cases, e, n), cases[n])
  {
    var taken := Taken(cases, e, n);
    var free := forall j :: 0 <= j < n && Takes(cases, e, j) ==> !Collide(cases[j], cases[n]);
    assert Takes(cases, e, n) <==> Qualifies(cases[n], e) && free;
    hide Collide, Qualifies, Taken, Takes;
    if free {
      forall i | 0 <= i < |taken|
        ensures !Collide(taken[i], cases[n])
      {
        TakenAreTaken(cases, e, n, taken[i]);
      }
    }
    if Avoids(taken, cases[n]) {
      forall j | 0 <= j < n && Takes(cases, e, j)
        ensures !Collide(cases[j], cases[n])
      {
        TakenAreTaken(cases, e, n, cases[j]);
        var i :| 0 <= i < |taken| && taken[i] == cases[j];
      }
    }
  }

  /** The allocation, exactly: in the order of their ids, the cases that qualify and share no child session and no receipt
      with one taken before them; the counts are those of the taken ones. */
  lemma AllocationExactly(cases: seq<ScenarioCase>, e: Evaluation, t: ScenarioType)
    ensures var sorted, l := Sort(cases, CaseLeq), Allocate(cases, e);
            l.accepted == Taken(sorted, e, |sorted|) && CountOf(l.counts, t) == Occurrences(Taken(sorted, e, |sorted|), t)
  {
    var sorted := Sort(cases, CaseLeq);
    AcceptsExactly(sorted, e, |sorted|);
    assert sorted[..|sorted|] == sorted;
    AllocationConsistent(sorted, e);
    hide AllocateAll, Sort, Taken, Occurrences;
  }

  /** What is said of a case: every reason of its own, and every repetition of a case taken before it. */
  lemma {:induction false} RejectedExactly(cases: seq<ScenarioCase>, e: Evaluation, n: nat, i: nat, reason: RejectReason)
    requires i < n <= |cases| && forall j, k :: 0 <= j < k < |cases| ==> cases[j].artifactId != cases[k].artifactId
    ensures var rejected, id := AllocateAll(cases[..n], e).rejected, cases[i].artifactId;
            && (id in rejected <==> !Takes(cases, e, i))
            && (id in rejected ==> (reason in rejected[id] <==> Fails(cases[i], e, reason) || Repeats(cases[i], Taken(cases, e, i), reason)))
  {
    hide *;
    if i < n - 1 {
      assert cases[i].artifactId != cases[n - 1].artifactId;
      RejectedExactly(cases, e, n - 1, i, reason);
      Considering(cases, e, n - 1, cases[i].artifactId);
    } else {
      RejectedIds(cases, e, i, cases[i].artifactId);
      RejectedNow(cases, e, i, reason);
    }
  }

  /** One more case says nothing of the others. */
  lemma Considering(cases: seq<ScenarioCase>, e: Evaluation, n: nat, id: Id)
    requires n < |cases| && cases[n].artifactId != id
    ensures var before, after := AllocateAll(cases[..n], e).rejected, AllocateAll(cases[..n + 1], e).rejected;
            (id in after <==> id in before) && (id in after ==> after[id] == before[id])
  {
    AllocateMore(cases, n, e);
    Considered(AllocateAll(cases[..n], e), cases[n], e);
    hide *;
  }

  lemma RejectedNow(cases: seq<ScenarioCase>, e: Evaluation, i: nat, reason: RejectReason)
    requires i < |cases| && cases[i].artifactId !in AllocateAll(cases[..i], e).rejected
    ensures var rejected, id := AllocateAll(cases[..i + 1], e).rejected, cases[i].artifactId;
            && (id in rejected <==> !Takes(cases, e, i))
            && (id in rejected ==> (reason in rejected[id] <==> Fails(cases[i], e, reason) || Repeats(cases[i], Taken(cases, e, i), reason)))
  {
    var l, c := AllocateAll(cases[..i], e), cases[i];
    AllocateMore(cases, i, e);
    Considered(l, c, e);
    AllocationConsistent(cases[..i], e);
    AcceptsExactly(cases, e, i);
    NoReasonExactly(c, l, e);
    TakesExactly(cases, e, i);
    FailsExactly(c, e, reason);
    RepeatsExactly(c, l, e, reason);
    hide *;
  }

  lemma {:induction false} RejectedIds(cases: seq<ScenarioCase>, e: Evaluation, n: nat, id: Id)
    requires n <= |cases| && forall j :: 0 <= j < n ==> cases[j].artifactId != id
    ensures id !in AllocateAll(cases[..n], e).rejected
  {
    if n > 0 {
      RejectedIds(cases, e, n - 1, id);
      Considering(cases, e, n - 1, id);
      hide *;
    }
  }
}
