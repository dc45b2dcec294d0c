/** Snapshot consensus: how many independent observations in a row agree on the account state of a scope. */
module Consensus {
  import opened ControlModels

  /** The parts of a broker snapshot a vote is cast on. */
  datatype Observation = Observation(
    complete: bool,
    observationId: Option<Digest>,
    certificate: Option<Digest>,
    session: Option<Name>,
    scope: Option<Digest>,
    semanticHash: Option<Digest>,
    watermark: nat,
    asOf: Time,
    policy: Digest,
    valuations: map<Name, real>)

  datatype Disposition = AcceptedFirst | AcceptedIndependent | AcceptedDivergentReset | RejectedNonIndependent

  datatype Vote = Vote(
    observationId: Digest,
    certificate: Digest,
    session: Name,
    scope: Digest,
    semanticHash: Digest,
    watermark: nat,
    asOf: Time,
    recordedAt: Time,
    policy: Digest,
    valuations: map<Name, real>,
    disposition: Disposition)

  datatype ScopeRow = ScopeRow(semanticHash: Digest, count: nat, firstSeen: Time, lastSeen: Time, lastCertificate: Digest)

  /** Votes by observation id and one row per scope. */
  datatype Register = Register(votes: map<Digest, Vote>, rows: map<Digest, ScopeRow>)

  datatype Verdict = Verdict(agreed: bool, count: nat)

  const NEW_REGISTER := Register(map[], map[])

  predicate WellFormed(o: Observation) {
    && o.complete && o.semanticHash.Some? && o.scope.Some? && o.certificate.Some?
    && o.observationId.Some? && o.session.Some? && o.watermark > 0
  }

  predicate AcceptedIn(v: Vote, scope: Digest) { v.scope == scope && v.disposition != RejectedNonIndependent }

  predicate NotNewer(v: Vote, w: Vote) { v.asOf < w.asOf || (v.asOf == w.asOf && v.recordedAt <= w.recordedAt) }

  /** An accepted vote of the scope that none is newer than; ties may be broken either way. */
  predicate IsLatest(votes: map<Digest, Vote>, scope: Digest, latest: Option<Vote>) {
    match latest
    case None => forall id :: id in votes ==> !AcceptedIn(votes[id], scope)
    case Some(v) =>
      && v.observationId in votes && votes[v.observationId] == v && AcceptedIn(v, scope)
      && forall id :: id in votes && AcceptedIn(votes[id], scope) ==> NotNewer(votes[id], v)
  }

  const VALUATION_TOLERANCE_BPS := 25.0
  const VALUATION_FLOOR := 1.0

  function AbsReal(x: real): real { if x < 0.0 then -x else x }

  /** A valuation may drift by 25 basis points of the earlier value, and by at least one unit. */
  predicate WithinBudget(before: real, after: real) {
    var allowed := AbsReal(before) * VALUATION_TOLERANCE_BPS / 10000.0;
    AbsReal(after - before) <= (if allowed > VALUATION_FLOOR then allowed else VALUATION_FLOOR)
  }

  predicate Equivalent(previous: Vote, o: Observation) {
    && Some(previous.semanticHash) == o.semanticHash
    && previous.policy == o.policy
    && previous.valuations.Keys == o.valuations.Keys
    && forall f :: f in o.valuations ==> f in previous.valuations && WithinBudget(previous.valuations[f], o.valuations[f])
  }

  predicate Independent(previous: Vote, o: Observation, interval: nat) {
    && Some(previous.certificate) != o.certificate
    && Some(previous.session) != o.session
    && o.asOf > previous.asOf
    && o.watermark > previous.watermark
    && o.asOf - previous.asOf >= interval
  }

  function DispositionOf(previous: Option<Vote>, o: Observation, interval: nat): Disposition {
    match previous
    case None => AcceptedFirst
    case Some(p) =>
      if !Equivalent(p, o) then AcceptedDivergentReset
      else if Independent(p, o, interval) then AcceptedIndependent
      else RejectedNonIndependent
  }

  function Cast(o: Observation, at: Time, disposition: Disposition): Vote
    requires WellFormed(o)
  {
    Vote(o.observationId.value, o.certificate.value, o.session.value, o.scope.value, o.semanticHash.value,
         o.watermark, o.asOf, at, o.policy, o.valuations, disposition)
  }

  function NextCount(row: Option<ScopeRow>, disposition: Disposition): nat {
    match disposition
    case AcceptedIndependent => (if row.Some? then row.value.count else 0) + 1
    case RejectedNonIndependent => if row.Some? then row.value.count else 1
    case _ => 1
  }

  function NextFirstSeen(row: Option<ScopeRow>, disposition: Disposition, at: Time): Time {
    if (disposition == AcceptedIndependent || disposition == RejectedNonIndependent) && row.Some? then row.value.firstSeen else at
  }

  function RowOf(r: Register, scope: Digest): Option<ScopeRow> { if scope in r.rows then Some(r.rows[scope]) else None }

  /** `previous` is what the newest-accepted-vote query returned. */
  function Registered(r: Register, o: Observation, previous: Option<Vote>, at: Time, interval: nat): (Register, Verdict) {
    if !WellFormed(o) then (r, Verdict(false, 0))
    else
      var row := RowOf(r, o.scope.value);
      if o.observationId.value in r.votes then
        var count := if row.Some? then row.value.count else 0;
        (r, Verdict(count >= 2, count))
      else
        var disposition := DispositionOf(previous, o, interval);
        var count := NextCount(row, disposition);
        (Register(
           r.votes[o.observationId.value := Cast(o, at, disposition)],
           r.rows[o.scope.value := ScopeRow(o.semanticHash.value, count, NextFirstSeen(row, disposition, at), at, o.certificate.value)]),
         Verdict(count >= 2, count))
  }

  /* ---------- Chains of independent agreeing votes ---------- */

  function Size(x: real): real { if x >= 0.0 then x else -x }

  /** Apart by one unit at most, or by a four-hundredth of the earlier value. */
  predicate Close(before: real, after: real) { Size(after - before) <= 1.0 || 400.0 * Size(after - before) <= Size(before) }

  predicate CloseValues(before: map<Name, real>, after: map<Name, real>) {
    before.Keys == after.Keys && forall f :: f in before ==> Close(before[f], after[f])
  }

  lemma BudgetExactly(before: real, after: real)
    ensures WithinBudget(before, after) <==> Close(before, after)
  {
  }

  /** The later vote confirms the earlier one independently. */
  predicate Confirms(v: Vote, w: Vote, interval: nat) {
    && v.semanticHash == w.semanticHash && v.policy == w.policy && CloseValues(v.valuations, w.valuations)
    && v.certificate != w.certificate && v.session != w.session
    && v.watermark < w.watermark && v.asOf < w.asOf && w.asOf - v.asOf >= interval
  }

  predicate IsChain(votes: map<Digest, Vote>, scope: Digest, chain: seq<Vote>, interval: nat) {
    && |chain| > 0
    && (forall i :: 0 <= i < |chain| ==>
          chain[i].observationId in votes && votes[chain[i].observationId] == chain[i] && AcceptedIn(chain[i], scope))
    && (forall i :: 0 <= i < |chain| - 1 ==> Confirms(chain[i], chain[i + 1], interval))
  }

  ghost predicate ChainEnds(votes: map<Digest, Vote>, scope: Digest, v: Vote, length: nat, interval: nat) {
    exists chain :: IsChain(votes, scope, chain, interval) && chain[|chain| - 1] == v && |chain| == length
  }

  /** The count of a scope never exceeds the chain ending at any newest accepted vote. */
  ghost predicate RegisterInv(r: Register, interval: nat) {
    && (forall id :: id in r.votes ==> r.votes[id].observationId == id && r.votes[id].scope in r.rows)
    && (forall scope :: scope in r.rows ==>
          && r.rows[scope].count >= 1 && !IsLatest(r.votes, scope, None)
          && forall v :: IsLatest(r.votes, scope, Some(v)) ==> ChainEnds(r.votes, scope, v, r.rows[scope].count, interval))
  }

  /** A chain of k votes spans at least k - 1 intervals. */
  lemma {:induction false} ChainSpans(votes: map<Digest, Vote>, scope: Digest, chain: seq<Vote>, interval: nat)
    requires IsChain(votes, scope, chain, interval)
    ensures chain[|chain| - 1].asOf - chain[0].asOf >= (|chain| - 1) * interval
    decreases |chain|
  {
    if |chain| > 1 {
      var n := |chain| - 1;
      var rest := chain[..n];
      assert IsChain(votes, scope, rest, interval);
      ChainSpans(votes, scope, rest, interval);
      assert Confirms(chain[n - 1], chain[n], interval);
      assert (n - 1) * interval + interval == n * interval;
    }
  }

  lemma ChainGrows(votes: map<Digest, Vote>, after: map<Digest, Vote>, scope: Digest, v: Vote, length: nat, interval: nat)
    requires ChainEnds(votes, scope, v, length, interval)
    requires forall id :: id in votes ==> id in after && after[id] == votes[id]
    ensures ChainEnds(after, scope, v, length, interval)
  {
    var chain :| IsChain(votes, scope, chain, interval) && chain[|chain| - 1] == v && |chain| == length;
    assert IsChain(after, scope, chain, interval);
  }

  lemma ChainExtends(votes: map<Digest, Vote>, scope: Digest, v: Vote, length: nat, w: Vote, interval: nat)
    requires ChainEnds(votes, scope, v, length, interval) && Confirms(v, w, interval)
    requires w.observationId in votes && votes[w.observationId] == w && AcceptedIn(w, scope)
    ensures ChainEnds(votes, scope, w, length + 1, interval)
  {
    var chain :| IsChain(votes, scope, chain, interval) && chain[|chain| - 1] == v && |chain| == length;
    assert IsChain(votes, scope, chain + [w], interval) && (chain + [w])[|chain|] == w;
  }

  lemma ChainStarts(votes: map<Digest, Vote>, scope: Digest, v: Vote, interval: nat)
    requires v.observationId in votes && votes[v.observationId] == v && AcceptedIn(v, scope)
    ensures ChainEnds(votes, scope, v, 1, interval)
  {
    assert IsChain(votes, scope, [v], interval);
  }

  /* ---------- What one registration does ---------- */

  /** The same state under the same policy, with the same valuation fields, none too far apart. */
  predicate Agrees(p: Vote, o: Observation) {
    o.semanticHash == Some(p.semanticHash) && o.policy == p.policy && CloseValues(p.valuations, o.valuations)
  }

  /** Another session and another certificate, newer and with a greater watermark, at least an interval later. */
  predicate Separate(p: Vote, o: Observation, interval: nat) {
    && o.session != Some(p.session) && o.certificate != Some(p.certificate)
    && p.asOf < o.asOf && p.asOf + interval <= o.asOf && p.watermark < o.watermark
  }

  lemma AgreesExactly(p: Vote, o: Observation)
    ensures Equivalent(p, o) <==> Agrees(p, o)
  {
    forall f | f in p.valuations && f in o.valuations
      ensures WithinBudget(p.valuations[f], o.valuations[f]) <==> Close(p.valuations[f], o.valuations[f])
    {
      BudgetExactly(p.valuations[f], o.valuations[f]);
    }
    hide WithinBudget, Close;
    assert p.valuations.Keys == o.valuations.Keys ==> forall f :: f in o.valuations <==> f in p.valuations;
  }

  /** The vote that a registration of a new observation writes, and what it answers. A first vote and a divergent one
      start the count again, an agreeing one adds to it exactly when it is independent, and otherwise leaves it as it
      is; two in a row are agreement. */
  lemma RegistrationExactly(r: Register, o: Observation, previous: Option<Vote>, at: Time, interval: nat)
    requires WellFormed(o) && o.observationId.value !in r.votes
    ensures var (after, verdict) := Registered(r, o, previous, at, interval);
            var scope, id := o.scope.value, o.observationId.value;
            var before := if scope in r.rows then r.rows[scope].count else 0;
            && id in after.votes && after.votes == r.votes[id := after.votes[id]]
            && scope in after.rows && after.rows == r.rows[scope := after.rows[scope]]
            && var w := after.votes[id];
            && (w.disposition == AcceptedFirst <==> previous.None?)
            && (w.disposition == AcceptedDivergentReset <==> previous.Some? && !Agrees(previous.value, o))
            && (w.disposition == AcceptedIndependent <==>
                  previous.Some? && Agrees(previous.value, o) && Separate(previous.value, o, interval))
            && after.rows[scope].count == (match w.disposition
                                           case AcceptedFirst => 1
                                           case AcceptedDivergentReset => 1
                                           case AcceptedIndependent => before + 1
                                           case RejectedNonIndependent => if scope in r.rows then before else 1)
            && after.rows[scope].semanticHash == w.semanticHash == o.semanticHash.value
            && w.valuations == o.valuations && w.policy == o.policy && w.asOf == o.asOf && w.watermark == o.watermark
            && w.scope == scope && w.session == o.session.value && w.certificate == o.certificate.value
            && verdict == Verdict(after.rows[scope].count >= 2, after.rows[scope].count)
  {
    hide Equivalent, Agrees;
    if previous.Some? { AgreesExactly(previous.value, o); }
  }

  /** An observation that cannot be voted on, or was before, changes nothing; the latter is answered by the row. */
  lemma RepeatExactly(r: Register, o: Observation, previous: Option<Vote>, at: Time, interval: nat)
    ensures var usable := o.complete && o.semanticHash.Some? && o.scope.Some? && o.certificate.Some? && o.observationId.Some? && o.session.Some?
                          && o.watermark > 0;
            && (!usable ==> Registered(r, o, previous, at, interval) == (r, Verdict(false, 0)))
            && (usable && o.observationId.value in r.votes ==>
                  var count := if o.scope.value in r.rows then r.rows[o.scope.value].count else 0;
                  Registered(r, o, previous, at, interval) == (r, Verdict(count >= 2, count)))
  {
  }

  /* ---------- Every registration keeps the bound ---------- */

  lemma OtherScopesKeep(r: Register, after: Register, o: Observation, scope: Digest, interval: nat)
    requires RegisterInv(r, interval) && WellFormed(o) && scope in r.rows && scope != o.scope.value && o.observationId.value !in r.votes
    requires exists v: Vote :: v.scope == o.scope.value && after.votes == r.votes[o.observationId.value := v]
    requires scope in after.rows && after.rows[scope] == r.rows[scope]
    ensures !IsLatest(after.votes, scope, None)
    ensures forall v :: IsLatest(after.votes, scope, Some(v)) ==> ChainEnds(after.votes, scope, v, after.rows[scope].count, interval)
  {
    var id :| id in r.votes && AcceptedIn(r.votes[id], scope);
    assert id in after.votes && AcceptedIn(after.votes[id], scope);
    forall v | IsLatest(after.votes, scope, Some(v))
      ensures ChainEnds(after.votes, scope, v, after.rows[scope].count, interval)
    {
      forall i | i in r.votes && AcceptedIn(r.votes[i], scope)
        ensures NotNewer(r.votes[i], v)
      {
        assert i in after.votes && AcceptedIn(after.votes[i], scope);
      }
      assert IsLatest(r.votes, scope, Some(v));
      ChainGrows(r.votes, after.votes, scope, v, r.rows[scope].count, interval);
    }
  }

  /** The latest vote after one more vote is the new one or was latest before. */
  lemma LatestAfter(votes: map<Digest, Vote>, w: Vote, scope: Digest, v: Vote)
    requires w.observationId !in votes && IsLatest(votes[w.observationId := w], scope, Some(v)) && v != w
    ensures IsLatest(votes, scope, Some(v))
  {
    var after := votes[w.observationId := w];
    forall i | i in votes && AcceptedIn(votes[i], scope)
      ensures NotNewer(votes[i], v)
    {
      assert i in after && AcceptedIn(after[i], scope);
    }
  }

  /** A vote dated after the newest one becomes the only newest one. */
  lemma ConfirmingVoteIsNewest(votes: map<Digest, Vote>, w: Vote, scope: Digest, p: Vote, v: Vote)
    requires w.observationId !in votes && AcceptedIn(w, scope) && p.asOf < w.asOf
    requires IsLatest(votes, scope, Some(p)) && IsLatest(votes[w.observationId := w], scope, Some(v))
    ensures v == w
  {
    var after := votes[w.observationId := w];
    assert w.observationId in after && NotNewer(after[w.observationId], v);
    if v != w { LatestAfter(votes, w, scope, v); }
  }

  /** The scope of the vote itself. */
  lemma OwnScopeKeeps(r: Register, o: Observation, previous: Option<Vote>, at: Time, interval: nat, v: Vote)
    requires RegisterInv(r, interval) && WellFormed(o) && o.observationId.value !in r.votes
    requires IsLatest(r.votes, o.scope.value, previous)
    requires var after := Registered(r, o, previous, at, interval).0; IsLatest(after.votes, o.scope.value, Some(v))
    ensures var after := Registered(r, o, previous, at, interval).0;
            ChainEnds(after.votes, o.scope.value, v, after.rows[o.scope.value].count, interval)
  {
    var scope := o.scope.value;
    var disposition := DispositionOf(previous, o, interval);
    var w := Cast(o, at, disposition);
    var after := r.votes[w.observationId := w];
    if v != w { LatestAfter(r.votes, w, scope, v); }
    if disposition == AcceptedIndependent {
      var p := previous.value;
      assert p.observationId in r.votes && scope in r.rows;
      ConfirmingVoteIsNewest(r.votes, w, scope, p, v);
      AgreesExactly(p, o);
      ChainGrows(r.votes, after, scope, p, r.rows[scope].count, interval);
      ChainExtends(after, scope, p, r.rows[scope].count, w, interval);
    } else if disposition == RejectedNonIndependent {
      assert scope in r.rows by { assert previous.value.observationId in r.votes; }
      ChainGrows(r.votes, after, scope, v, r.rows[scope].count, interval);
    } else {
      ChainStarts(after, scope, v, interval);
    }
  }

  lemma OwnScopeHasLatest(r: Register, o: Observation, previous: Option<Vote>, at: Time, interval: nat)
    requires RegisterInv(r, interval) && WellFormed(o) && o.observationId.value !in r.votes && IsLatest(r.votes, o.scope.value, previous)
    ensures var after := Registered(r, o, previous, at, interval).0;
            !IsLatest(after.votes, o.scope.value, None) && after.rows[o.scope.value].count >= 1
  {
    var after := Registered(r, o, previous, at, interval).0;
    var scope := o.scope.value;
    if DispositionOf(previous, o, interval) == RejectedNonIndependent {
      var p := previous.value;
      assert p.observationId in after.votes && AcceptedIn(after.votes[p.observationId], scope);
    } else {
      var id := o.observationId.value;
      assert id in after.votes && AcceptedIn(after.votes[id], scope);
    }
  }

  lemma RegisterKeepsInv(r: Register, o: Observation, previous: Option<Vote>, at: Time, interval: nat)
    requires RegisterInv(r, interval)
    requires o.scope.Some? ==> IsLatest(r.votes, o.scope.value, previous)
    ensures RegisterInv(Registered(r, o, previous, at, interval).0, interval)
  {
    if WellFormed(o) && o.observationId.value !in r.votes {
      var after := Registered(r, o, previous, at, interval).0;
      OwnScopeHasLatest(r, o, previous, at, interval);
      forall scope | scope in after.rows
        ensures after.rows[scope].count >= 1 && !IsLatest(after.votes, scope, None)
        ensures forall v :: IsLatest(after.votes, scope, Some(v)) ==> ChainEnds(after.votes, scope, v, after.rows[scope].count, interval)
      {
        if scope != o.scope.value {
          OtherScopesKeep(r, after, o, scope, interval);
        } else {
          forall v | IsLatest(after.votes, scope, Some(v))
            ensures ChainEnds(after.votes, scope, v, after.rows[scope].count, interval)
          {
            OwnScopeKeeps(r, o, previous, at, interval, v);
          }
        }
      }
    }
  }

  /* ---------- Runs ---------- */

  /** One call: the observation, the time, and the vote the query returned. */
  datatype Ballot = Ballot(observation: Observation, previous: Option<Vote>, at: Time)

  ghost function RunBallots(ballots: seq<Ballot>, interval: nat): Register {
    if ballots == [] then NEW_REGISTER
    else
      var r := RunBallots(ballots[..|ballots| - 1], interval);
      var b := ballots[|ballots| - 1];
      if b.observation.scope.Some? && !IsLatest(r.votes, b.observation.scope.value, b.previous) then r
      else Registered(r, b.observation, b.previous, b.at, interval).0
  }

  lemma {:induction false} RunKeepsRegisterInv(ballots: seq<Ballot>, interval: nat)
    ensures RegisterInv(RunBallots(ballots, interval), interval)
  {
    if ballots != [] {
      hide RegisterInv, IsLatest, Registered;
      RunKeepsRegisterInv(ballots[..|ballots| - 1], interval);
      var b := ballots[|ballots| - 1];
      var r := RunBallots(ballots[..|ballots| - 1], interval);
      if b.observation.scope.None? || IsLatest(r.votes, b.observation.scope.value, b.previous) {
        RegisterKeepsInv(r, b.observation, b.previous, b.at, interval);
      }
    }
  }

  /** Consensus soundness: with a stored count of k there are k accepted votes ending at the newest accepted
      one, each independently confirming the one before, and together they span at least k - 1 intervals.
      This holds after any mix of independent, repeated, non-independent, divergent and late votes. */
  lemma CountIsEarned(ballots: seq<Ballot>, interval: nat, scope: Digest, v: Vote) returns (chain: seq<Vote>)
    requires scope in RunBallots(ballots, interval).rows && IsLatest(RunBallots(ballots, interval).votes, scope, Some(v))
    ensures var r := RunBallots(ballots, interval);
            && IsChain(r.votes, scope, chain, interval) && chain[|chain| - 1] == v
            && |chain| == r.rows[scope].count
            && (forall i :: 0 < i < |chain| ==> CloseValues(chain[i - 1].valuations, chain[i].valuations))
            && v.asOf - chain[0].asOf >= (r.rows[scope].count - 1) * interval
  {
    RunKeepsRegisterInv(ballots, interval);
    var r := RunBallots(ballots, interval);
    chain :| IsChain(r.votes, scope, chain, interval) && chain[|chain| - 1] == v && |chain| == r.rows[scope].count;
    ChainSpans(r.votes, scope, chain, interval);
    ChainIsClose(r.votes, scope, chain, interval);
  }

  lemma ChainIsClose(votes: map<Digest, Vote>, scope: Digest, chain: seq<Vote>, interval: nat)
    requires IsChain(votes, scope, chain, interval)
    ensures forall i :: 0 < i < |chain| ==> CloseValues(chain[i - 1].valuations, chain[i].valuations)
  {
    forall i | 0 < i < |chain|
      ensures CloseValues(chain[i - 1].valuations, chain[i].valuations)
    {
      assert Confirms(chain[i - 1], chain[i - 1 + 1], interval);
    }
  }

  /* ---------- The tables and their one transaction ---------- */

  class SnapshotConsensus {
    var votes: map<Digest, Vote>
    var rows: map<Digest, ScopeRow>

    ghost function State(): Register
      reads this
    {
      Register(votes, rows)
    }

    constructor ()
      ensures State() == NEW_REGISTER
    {
      votes, rows := map[], map[];
    }

    /** Scans the votes of a scope for one that none is newer than. */
    method LatestAccepted(scope: Digest) returns (latest: Option<Vote>)
      requires forall id :: id in votes ==> votes[id].observationId == id
      ensures IsLatest(votes, scope, latest)
    {
      latest := None;
      var pending := votes.Keys;
      while pending != {}
        invariant pending <= votes.Keys
        invariant latest.None? ==> forall id :: id in votes && id !in pending ==> !AcceptedIn(votes[id], scope)
        invariant latest.Some? ==>
                    && latest.value.observationId in votes && votes[latest.value.observationId] == latest.value
                    && AcceptedIn(latest.value, scope)
                    && forall id :: id in votes && id !in pending && AcceptedIn(votes[id], scope) ==> NotNewer(votes[id], latest.value)
        decreases pending
      {
        var id :| id in pending;
        pending := pending - {id};
        var v := votes[id];
        if AcceptedIn(v, scope) && (latest.None? || NotNewer(latest.value, v)) {
          latest := Some(v);
        }
      }
    }

    /** Compares the exact state and then every valuation field against its drift budget. */
    static method AuthorityEquivalence(previous: Vote, o: Observation) returns (equivalent: bool)
      ensures equivalent <==> Agrees(previous, o)
      ensures equivalent == Equivalent(previous, o)
    {
      AgreesExactly(previous, o);
      equivalent := Some(previous.semanticHash) == o.semanticHash && previous.policy == o.policy
                    && previous.valuations.Keys == o.valuations.Keys;
      if equivalent {
        var pending := o.valuations.Keys;
        while pending != {}
          invariant pending <= o.valuations.Keys
          invariant equivalent <==>
                      forall f :: f in o.valuations && f !in pending ==> WithinBudget(previous.valuations[f], o.valuations[f])
          decreases pending
        {
          var f :| f in pending;
          pending := pending - {f};
          equivalent := equivalent && WithinBudget(previous.valuations[f], o.valuations[f]);
        }
      }
    }

    /** One vote. Whichever newest vote the scan finds, the bound on the count is kept. */
    method RegisterSnapshot(o: Observation, at: Time, interval: nat) returns (verdict: Verdict, ghost previous: Option<Vote>)
      requires RegisterInv(State(), interval)
      modifies this
      ensures WellFormed(o) && o.observationId.value !in old(votes) ==> IsLatest(old(votes), o.scope.value, previous)
      ensures (State(), verdict) == Registered(old(State()), o, previous, at, interval)
      ensures RegisterInv(State(), interval)
    {
      previous := None;
      if !(o.complete && o.semanticHash.Some? && o.scope.Some? && o.certificate.Some? && o.observationId.Some? && o.session.Some? && o.watermark > 0) {
        return Verdict(false, 0), previous;
      }
      var scope, id := o.scope.value, o.observationId.value;
      var row := if scope in rows then Some(rows[scope]) else None;
      if id in votes {
        var repeated := if row.Some? then row.value.count else 0;
        return Verdict(repeated >= 2, repeated), previous;
      }
      var count, firstSeen, disposition := 1, at, AcceptedFirst;
      var last := LatestAccepted(scope);
      if last.Some? {
        var same := AuthorityEquivalence(last.value, o);
        if same {
          if Independent(last.value, o, interval) {
            count := (if row.Some? then row.value.count else 0) + 1;
            disposition := AcceptedIndependent;
          } else {
            count := if row.Some? then row.value.count else 1;
            disposition := RejectedNonIndependent;
          }
          firstSeen := if row.Some? then row.value.firstSeen else at;
        } else {
          disposition := AcceptedDivergentReset;
        }
      }
      previous := last;
      RegisterKeepsInv(State(), o, previous, at, interval);
      votes := votes[id := Cast(o, at, disposition)];
      rows := rows[scope := ScopeRow(o.semanticHash.value, count, firstSeen, at, o.certificate.value)];
      verdict := Verdict(count >= 2, count);
    }
  }
}
