/** When the reducer depends on the set of facts alone, for facts that may share an id. */
module SharedIds {
  import opened ControlModels
  import opened FactReducer
  import opened Sorting

  /** A fact id hashes everything but the time of receipt. */
  ghost predicate IdsHashRest(facts: set<Fact>) {
    forall f, g :: f in facts && g in facts && f.id == g.id ==> g == f.(receivedAt := g.receivedAt)
  }

  /** The reducer reads the fact: its type is known, and it carries the execution id it needs. */
  predicate Matters(f: Fact) { !f.kind.OtherFact? && !Malformed(f) }

  /** Two facts that the reducer reads share an id although they were received at different times. */
  predicate Clash(f: Fact, g: Fact) { f.id == g.id && f.receivedAt != g.receivedAt && Matters(f) }

  ghost predicate SameResult(f: seq<Fact>, g: seq<Fact>) {
    Elements(f) == Elements(g) && OneSession(f) && OneSession(g) ==> Reduce(f) == Reduce(g)
  }

  /** Every tape of one session drawn from these facts is reduced by its set of facts alone. */
  ghost predicate SetDetermined(facts: set<Fact>) {
    forall f, g :: Elements(f) <= facts && Elements(g) <= facts ==> SameResult(f, g)
  }

  /* ---------- A clash shows ---------- */

  lemma TwoFolds(f: Fact, g: Fact)
    requires FactLeq(f, g)
    ensures Fold(Sort([f, g], FactLeq)) == Step(Step(NEW_STATE, f), g)
  {
    hide Step, FactLeq;
    assert [f, g][..1] == [f] && [f][..0] == [];
    assert Sort([f], FactLeq) == [f];
    assert Sort([f, g], FactLeq) == Insert([f], g, FactLeq) == [f, g];
    assert Fold([f]) == Step(NEW_STATE, f);
    assert Fold([f, g]) == Step(Fold([f]), g);
  }

  lemma TiesEitherWay(f: Fact, g: Fact)
    requires g == f.(receivedAt := g.receivedAt)
    ensures FactLeq(f, g) && FactLeq(g, f)
  {
    StringTotal(f.id, f.id);
  }

  /** Where the state keeps the time of receipt of a fact that matters. */
  ghost function SeenAt(s: ReducerState, f: Fact, identity: Identity): Option<Time> {
    match f.kind
    case PositionFact => if f.identityKey in s.positions then Some(s.positions[f.identityKey].receivedAt) else None
    case AccountValueFact => if f.identityKey in s.accounts then Some(s.accounts[f.identityKey].receivedAt) else None
    case ExecutionFact =>
      if f.payload.execId.Some? && f.payload.execId.value in s.executions then Some(s.executions[f.payload.execId.value].receivedAt) else None
    case CommissionFact =>
      if f.payload.execId.Some? && f.payload.execId.value in s.commissions then Some(s.commissions[f.payload.execId.value].receivedAt) else None
    case OtherFact(_) => None
    case _ => if identity in s.orders && s.orders[identity].receivedAt.Val? then Some(s.orders[identity].receivedAt.value) else None
  }

  lemma LastReceiptShows(s: ReducerState, g: Fact)
    requires Matters(g)
    ensures SeenAt(Step(s, g), g, Route(s.aliases, g)) == Some(g.receivedAt)
  {
    if IsOrderFact(g) { LastOrderShows(s, g); } else { LastRowShows(s, g); }
    hide Step, SeenAt, Route, Matters;
  }

  lemma LastOrderShows(s: ReducerState, g: Fact)
    requires IsOrderFact(g)
    ensures SeenAt(Step(s, g), g, Route(s.aliases, g)) == Some(g.receivedAt)
  {
    hide Route, MergeId, MergeStatus, MergeRemaining, MergeConflicts, SlotOf;
  }

  lemma LastRowShows(s: ReducerState, g: Fact)
    requires Matters(g) && !IsOrderFact(g)
    ensures SeenAt(Step(s, g), g, Route(s.aliases, g)) == Some(g.receivedAt)
  {
    hide Route, MergeOrder, MergeConflicts, SlotOf;
  }

  lemma RouteReadsNoTime(aliases: map<(int, int), Identity>, f: Fact, g: Fact)
    requires g == f.(receivedAt := g.receivedAt)
    ensures Route(aliases[SlotOf(f) := Route(aliases, f)], g) == Route(aliases, f) == Route(aliases, g)
  {
  }

  /** Two states that keep different times give different models. */
  lemma SeenShows(s: ReducerState, t: ReducerState, f: Fact, identity: Identity, session: string)
    requires SeenAt(s, f, identity) != SeenAt(t, f, identity)
    ensures Finish(session, s) != Finish(session, t)
  {
    hide EffectiveIds, Corrections, Roots;
    var m, n := Finish(session, s), Finish(session, t);
    assert m.orders == s.orders && n.orders == t.orders && m.executions == s.executions && n.executions == t.executions;
    assert m.commissions == s.commissions && n.commissions == t.commissions;
    assert m.positions == s.positions && n.positions == t.positions && m.accounts == s.accounts && n.accounts == t.accounts;
  }

  lemma SecondReceiptShows(f: Fact, g: Fact)
    requires g == f.(receivedAt := g.receivedAt) && Matters(f)
    ensures SeenAt(Step(Step(NEW_STATE, f), g), f, Route(map[], f)) == Some(g.receivedAt)
  {
    var s := Step(NEW_STATE, f);
    RouteReadsNoTime(map[], f, g);
    LastReceiptShows(s, g);
    StepAliases(NEW_STATE, f);
    hide Step, Route;
  }

  lemma StepAliases(s: ReducerState, f: Fact)
    ensures Step(s, f).aliases == if IsOrderFact(f) then s.aliases[SlotOf(f) := Route(s.aliases, f)] else s.aliases
  {
    hide Route, MergeOrder, MergeConflicts, SlotOf;
  }

  lemma PairReduces(f: Fact, g: Fact)
    requires FactLeq(f, g) && !Malformed(f) && !Malformed(g)
    ensures Reduce([f, g]) == Reduced(Finish(f.session, Step(Step(NEW_STATE, f), g)))
  {
    hide Step, Fold, Sort, Finish, Malformed, FactLeq;
    TwoFolds(f, g);
    assert forall x :: x in [f, g] ==> !Malformed(x);
  }

  /** Of two facts with one id, the one that comes later in the tape is the one whose receipt is kept. */
  lemma PairDependsOnOrder(f: Fact, g: Fact)
    requires g == f.(receivedAt := g.receivedAt) && Clash(f, g)
    ensures Elements([f, g]) == Elements([g, f]) && OneSession([f, g]) && OneSession([g, f])
    ensures Reduce([f, g]) != Reduce([g, f])
  {
    PairIsTape(f, g);
    TiesEitherWay(f, g);
    PairReduces(f, g);
    PairReduces(g, f);
    PairShows(f, g);
    hide *;
  }

  lemma PairIsTape(f: Fact, g: Fact)
    requires f.session == g.session
    ensures Elements([f, g]) == {f, g} == Elements([g, f]) && OneSession([f, g]) && OneSession([g, f])
  {
  }

  lemma PairShows(f: Fact, g: Fact)
    requires g == f.(receivedAt := g.receivedAt) && f.receivedAt != g.receivedAt && Matters(f)
    ensures Finish(f.session, Step(Step(NEW_STATE, f), g)) != Finish(f.session, Step(Step(NEW_STATE, g), f))
  {
    SecondReceiptShows(f, g);
    SecondReceiptShows(g, f);
    SeenIsShared(Step(Step(NEW_STATE, g), f), f, g, Route(map[], f));
    RouteReadsNoTime(map[], f, g);
    SeenShows(Step(Step(NEW_STATE, f), g), Step(Step(NEW_STATE, g), f), f, Route(map[], f), f.session);
    hide Step, Finish, SeenAt, Route, Matters;
  }

  lemma SeenIsShared(s: ReducerState, f: Fact, g: Fact, identity: Identity)
    requires g == f.(receivedAt := g.receivedAt)
    ensures SeenAt(s, f, identity) == SeenAt(s, g, identity)
  {
  }

  /* ---------- Without a clash nothing does ---------- */

  /** The facts whose type the reducer knows. */
  function Known(facts: seq<Fact>): seq<Fact> {
    if facts == [] then []
    else
      var last := facts[|facts| - 1];
      if last.kind.OtherFact? then Known(facts[..|facts| - 1]) else Known(facts[..|facts| - 1]) + [last]
  }

  lemma {:induction false} FoldKnown(facts: seq<Fact>)
    ensures Fold(Known(facts)) == Fold(facts)
  {
    if facts != [] {
      var rest, last := facts[..|facts| - 1], facts[|facts| - 1];
      FoldKnown(rest);
      if last.kind.OtherFact? {
        assert Step(Fold(rest), last) == Fold(rest);
      } else {
        hide Step;
        assert (Known(rest) + [last])[..|Known(rest)|] == Known(rest);
      }
    }
  }

  lemma {:induction false} KnownElements(facts: seq<Fact>)
    ensures forall f :: f in Elements(Known(facts)) <==> f in Elements(facts) && !f.kind.OtherFact?
  {
    if facts != [] {
      var rest, last := facts[..|facts| - 1], facts[|facts| - 1];
      KnownElements(rest);
      ElementsOfPrefix(facts);
      if !last.kind.OtherFact? {
        assert Elements(Known(rest) + [last]) == Elements(Known(rest)) + {last};
      }
      hide Elements;
    }
  }

  lemma {:induction false} KnownSorted(facts: seq<Fact>)
    requires Sorted(facts, FactLeq)
    ensures Sorted(Known(facts), FactLeq)
  {
    if facts != [] {
      hide FactLeq;
      var rest, last := facts[..|facts| - 1], facts[|facts| - 1];
      KnownSorted(rest);
      if !last.kind.OtherFact? {
        KnownElements(rest);
        forall i | 0 <= i < |Known(rest)|
          ensures FactLeq(Known(rest)[i], last)
        {
          assert Known(rest)[i] in Elements(Known(rest));
          var j :| 0 <= j < |rest| && rest[j] == Known(rest)[i];
          assert facts[j] == rest[j];
        }
      }
    }
  }

  /** The sort key compares any two facts; only facts with one id tie. */
  lemma FactsRanked(facts: set<Fact>)
    ensures Ranks(FactLeq, facts)
  {
    forall f, g | f in facts && g in facts
      ensures FactLeq(f, g) || FactLeq(g, f)
    {
      StringTotal(TypeName(f.kind), TypeName(g.kind));
      StringTotal(f.identityKey, g.identityKey);
      StringTotal(f.id, g.id);
    }
    forall f, g, h | f in facts && g in facts && h in facts && FactLeq(f, g) && FactLeq(g, h)
      ensures FactLeq(f, h)
    {
      FactLeqTransitive(f, g, h);
    }
  }

  lemma SortedKnown(facts: seq<Fact>)
    requires IdsNameFacts(Elements(Known(facts)))
    ensures var k := Known(Sort(facts, FactLeq));
            && Sorted(k, FactLeq) && Elements(k) == Elements(Known(facts)) && Orders(FactLeq, Elements(k))
  {
    hide FactLeq, Sort, IdsNameFacts, Known, Orders, Ranks;
    FactsRanked(Elements(facts));
    SortSorts(facts, FactLeq);
    KnownSorted(Sort(facts, FactLeq));
    KnownElements(facts);
    KnownElements(Sort(facts, FactLeq));
    assert Elements(Known(Sort(facts, FactLeq))) == Elements(Known(facts));
    FactsOrdered(Elements(Known(facts)));
  }

  /** What the fold makes of a tape is fixed by the facts it knows, if their ids name them. */
  lemma FoldDependsOnKnown(f: seq<Fact>, g: seq<Fact>)
    requires Elements(Known(f)) == Elements(Known(g)) && IdsNameFacts(Elements(Known(f)))
    ensures Fold(Sort(f, FactLeq)) == Fold(Sort(g, FactLeq))
  {
    hide FactLeq, Sort, IdsNameFacts, Known, Orders, Sorted, Squeeze, Fold, Elements;
    SortedKnown(f);
    SortedKnown(g);
    var s, t := Known(Sort(f, FactLeq)), Known(Sort(g, FactLeq));
    SqueezeDistinct(s, FactLeq);
    SqueezeDistinct(t, FactLeq);
    SqueezeElements(s);
    SqueezeElements(t);
    ListingUnique(Squeeze(s), Squeeze(t), FactLeq);
    FoldSqueezed(s);
    FoldSqueezed(t);
    FoldKnown(Sort(f, FactLeq));
    FoldKnown(Sort(g, FactLeq));
  }

  lemma SameKnown(f: seq<Fact>, g: seq<Fact>)
    requires Elements(f) == Elements(g)
    ensures Elements(Known(f)) == Elements(Known(g))
  {
    hide Known;
    KnownElements(f);
    KnownElements(g);
  }

  lemma KnownNamed(facts: seq<Fact>, all: set<Fact>)
    requires IdsHashRest(all) && Elements(facts) <= all && forall f, g :: f in all && g in all ==> !Clash(f, g)
    requires !(exists f :: f in facts && Malformed(f))
    ensures IdsNameFacts(Elements(Known(facts)))
  {
    KnownElements(facts);
    hide Known;
    forall f, g | f in Elements(Known(facts)) && g in Elements(Known(facts)) && f.id == g.id
      ensures f == g
    {
      assert f in Elements(facts) && f in facts && g in Elements(facts);
      assert !Clash(f, g);
    }
  }

  lemma ReduceWithoutClash(f: seq<Fact>, g: seq<Fact>, all: set<Fact>)
    requires IdsHashRest(all) && Elements(f) <= all && Elements(g) <= all && forall x, y :: x in all && y in all ==> !Clash(x, y)
    ensures SameResult(f, g)
  {
    if Elements(f) == Elements(g) && OneSession(f) && OneSession(g) {
      hide Finish, Step, Fold, Sort, FactLeq, IdsNameFacts, Known, IdsHashRest, Clash;
      EmptyTogether(f, g);
      if f != [] {
        assert g[0] in Elements(f) && f[0] in Elements(g);
        forall x: Fact
          ensures x in f <==> x in g
        {
          assert x in Elements(f) <==> x in f;
          assert x in Elements(g) <==> x in g;
        }
        assert (exists x :: x in f && Malformed(x)) == (exists x :: x in g && Malformed(x));
        if !(exists x :: x in f && Malformed(x)) {
          KnownNamed(f, all);
          SameKnown(f, g);
          FoldDependsOnKnown(f, g);
        }
      }
    }
  }

  /** Set-determinism, exactly. All tapes of one session drawn from these facts are reduced by their sets alone if and
      only if no two facts that the reducer reads share an id with different times of receipt. */
  lemma SetDeterminedExactly(facts: set<Fact>)
    requires IdsHashRest(facts)
    ensures SetDetermined(facts) <==> forall f, g :: f in facts && g in facts ==> !Clash(f, g)
  {
    hide Reduce;
    if forall f, g :: f in facts && g in facts ==> !Clash(f, g) {
      forall f, g | Elements(f) <= facts && Elements(g) <= facts
        ensures SameResult(f, g)
      {
        ReduceWithoutClash(f, g, facts);
      }
    } else {
      var f, g :| f in facts && g in facts && Clash(f, g);
      PairDependsOnOrder(f, g);
      assert Elements([f, g]) == {f, g};
      assert !SameResult([f, g], [g, f]);
    }
  }
}
