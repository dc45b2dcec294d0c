/** Quote admission: which quotes are eligible now, and until when they stay eligible. */
module Admission {
  import opened ControlModels

  datatype Reason =
    | ObservedInFuture | ObservedStale | ProviderInFuture | ProviderStale | ProviderAfterObservation
    | FeedNotRealtime | PhaseIneligible | VenueNotAuthoritative | SymbolMismatch | CurrencyMismatch
    | SpreadTooWide | DriftTooLarge

  /** The tolerances a quote is judged with; ages are in time units, widths in basis points. */
  datatype QuotePolicy = QuotePolicy(maxAge: nat, clockSkew: nat, maxSpreadBps: real)

  /** What a quote has to match when it is evaluated for one intent. */
  datatype QuoteBinding = QuoteBinding(
    symbol: Option<Instrument>,
    currency: Option<Currency>,
    reference: Option<Price>,
    side: Option<Side>,
    maxDriftBps: Option<real>)

  datatype QuoteAdmission = QuoteAdmission(eligible: bool, reasons: seq<Reason>, validUntil: Time)

  function When(condition: bool, reason: Reason): seq<Reason> { if condition then [reason] else [] }

  function SpreadBps(quote: QuoteSnapshot): real {
    var midpoint := (quote.bid as real + quote.ask as real) / 2.0;
    (quote.ask as real - quote.bid as real) / midpoint * 10000.0
  }

  function DriftBps(executable: Price, reference: Price): real {
    (if executable >= reference then (executable - reference) as real else (reference - executable) as real)
    / reference as real * 10000.0
  }

  function AgeReasons(quote: QuoteSnapshot, at: Time, policy: QuotePolicy): seq<Reason> {
    var observedAge := at - quote.observedAt;
    var providerAge := at - quote.providerTimestamp;
    (if observedAge < 0 then [ObservedInFuture] else When(observedAge > policy.maxAge, ObservedStale))
    + (if providerAge + policy.clockSkew < 0 then [ProviderInFuture] else When(providerAge > policy.maxAge, ProviderStale))
  }

  /** The reasons that do not depend on the time of evaluation. */
  function StaticReasons(quote: QuoteSnapshot, policy: QuotePolicy, binding: QuoteBinding): seq<Reason> {
    When(quote.providerTimestamp > quote.observedAt + policy.clockSkew, ProviderAfterObservation)
    + When(quote.feedMode != Realtime, FeedNotRealtime)
    + When(quote.marketPhase != Regular && quote.marketPhase != Open, PhaseIneligible)
    + When(quote.venue == NoVenue || quote.venue == UnknownVenue, VenueNotAuthoritative)
    + When(binding.symbol.Some? && quote.symbol != binding.symbol.value, SymbolMismatch)
    + When(binding.currency.Some? && quote.currency != binding.currency.value, CurrencyMismatch)
    + When(SpreadBps(quote) > policy.maxSpreadBps, SpreadTooWide)
    + (match binding
       case QuoteBinding(_, _, Some(reference), Some(side), Some(maxDriftBps)) =>
         When(DriftBps(if side == Buy then quote.ask else quote.bid, reference) > maxDriftBps, DriftTooLarge)
       case _ => [])
  }

  function ValidUntil(quote: QuoteSnapshot, policy: QuotePolicy): Time {
    Min(quote.observedAt + policy.maxAge, quote.providerTimestamp + policy.maxAge)
  }

  /** A binding with a reference price needs a side and a drift limit. */
  predicate WellBound(binding: QuoteBinding) {
    binding.reference.Some? ==> binding.side.Some? && binding.maxDriftBps.Some?
  }

  function EvaluateQuoteAdmission(
    quote: QuoteSnapshot, at: Time, policy: QuotePolicy, binding: QuoteBinding): (r: Result<QuoteAdmission>)
    ensures r.Ok? <==> WellBound(binding)
    ensures r.Ok? && r.value.eligible ==> r.value.reasons == [] && at < r.value.validUntil
  {
    if !WellBound(binding) then Err(QuoteUnbound)
    else
      var reasons := AgeReasons(quote, at, policy) + StaticReasons(quote, policy, binding);
      var validUntil := ValidUntil(quote, policy);
      Ok(QuoteAdmission(reasons == [] && validUntil > at, reasons, validUntil))
  }

  predicate Eligible(quote: QuoteSnapshot, at: Time, policy: QuotePolicy, binding: QuoteBinding) {
    var admission := EvaluateQuoteAdmission(quote, at, policy, binding);
    admission.Ok? && admission.value.eligible
  }

  /** An eligible quote stays eligible exactly until its hard expiry, and never again after it. */
  lemma EligibilityPersists(quote: QuoteSnapshot, t: Time, later: Time, policy: QuotePolicy, binding: QuoteBinding)
    requires Eligible(quote, t, policy, binding)
    requires t <= later
    ensures Eligible(quote, later, policy, binding) <==> later < ValidUntil(quote, policy)
  {
    assert AgeReasons(quote, t, policy) == [] && StaticReasons(quote, policy, binding) == [];
    if later < ValidUntil(quote, policy) {
      assert AgeReasons(quote, later, policy) == [];
    }
  }

  /** What speaks against a quote. */
  predicate Against(reason: Reason, quote: QuoteSnapshot, at: Time, policy: QuotePolicy, binding: QuoteBinding) {
    match reason
    case ObservedInFuture => at < quote.observedAt
    case ObservedStale => quote.observedAt + policy.maxAge < at
    case ProviderInFuture => at + policy.clockSkew < quote.providerTimestamp
    case ProviderStale => quote.providerTimestamp + policy.maxAge < at
    case ProviderAfterObservation => quote.observedAt + policy.clockSkew < quote.providerTimestamp
    case FeedNotRealtime => quote.feedMode != Realtime
    case PhaseIneligible => quote.marketPhase !in {Regular, Open}
    case VenueNotAuthoritative => quote.venue in {NoVenue, UnknownVenue}
    case SymbolMismatch => binding.symbol.Some? && binding.symbol.value != quote.symbol
    case CurrencyMismatch => binding.currency.Some? && binding.currency.value != quote.currency
    case SpreadTooWide =>
      var bid, ask := quote.bid as real, quote.ask as real;
      policy.maxSpreadBps < (ask - bid) / ((bid + ask) / 2.0) * 10000.0
    case DriftTooLarge =>
      && binding.reference.Some? && binding.side.Some? && binding.maxDriftBps.Some?
      && var reference := binding.reference.value as real;
      var executable := if binding.side.value == Buy then quote.ask as real else quote.bid as real;
      var apart := if executable >= reference then executable - reference else reference - executable;
      binding.maxDriftBps.value < apart / reference * 10000.0
  }

  lemma WhenExactly(condition: bool, listed: Reason, reason: Reason)
    ensures reason in When(condition, listed) <==> condition && reason == listed
  {
  }

  lemma AgeExactly(quote: QuoteSnapshot, at: Time, policy: QuotePolicy, binding: QuoteBinding, reason: Reason)
    ensures reason in AgeReasons(quote, at, policy) <==>
            reason in {ObservedInFuture, ObservedStale, ProviderInFuture, ProviderStale} && Against(reason, quote, at, policy, binding)
  {
    WhenExactly(at - quote.observedAt > policy.maxAge, ObservedStale, reason);
    WhenExactly(at - quote.providerTimestamp > policy.maxAge, ProviderStale, reason);
    hide When;
  }

  lemma StaticExactly(quote: QuoteSnapshot, at: Time, policy: QuotePolicy, binding: QuoteBinding, reason: Reason)
    ensures reason in StaticReasons(quote, policy, binding) <==>
            reason !in {ObservedInFuture, ObservedStale, ProviderInFuture, ProviderStale} && Against(reason, quote, at, policy, binding)
  {
    forall condition, listed
      ensures reason in When(condition, listed) <==> condition && reason == listed
    {
      WhenExactly(condition, listed, reason);
    }
    hide When;
  }

  /** The evaluation, exactly: the reasons listed are those that speak against the quote, its hard expiry is the age limit
      after the earlier of observation and provider time, and it is eligible if and only if nothing speaks against it and
      the expiry lies ahead. */
  lemma AdmissionExactly(quote: QuoteSnapshot, at: Time, policy: QuotePolicy, binding: QuoteBinding)
    requires WellBound(binding)
    ensures var admission := EvaluateQuoteAdmission(quote, at, policy, binding).value;
            && (forall reason :: reason in admission.reasons <==> Against(reason, quote, at, policy, binding))
            && admission.validUntil == (if quote.observedAt <= quote.providerTimestamp then quote.observedAt else quote.providerTimestamp) + policy.maxAge
            && (admission.eligible <==>
                  && (forall reason :: !Against(reason, quote, at, policy, binding))
                  && at < quote.observedAt + policy.maxAge && at < quote.providerTimestamp + policy.maxAge)
  {
    forall reason
      ensures reason in AgeReasons(quote, at, policy) + StaticReasons(quote, policy, binding) <==> Against(reason, quote, at, policy, binding)
    {
      AgeExactly(quote, at, policy, binding, reason);
      StaticExactly(quote, at, policy, binding, reason);
      hide AgeReasons, StaticReasons;
    }
    hide AgeReasons, StaticReasons, Against;
    var reasons := AgeReasons(quote, at, policy) + StaticReasons(quote, policy, binding);
    if reasons != [] { assert reasons[0] in reasons; }
  }
}
