/**
 * The rows kept for one Cashu payment and the checks that read them back:
 * quote evidence (cashu-stellar-melt-quote-record.ts), operator effect and
 * lifecycle events (postgres-cashu-proof-reservation-lifecycle-repository.ts).
 * Fingerprints are modelled as equality of the values they are taken over.
 */
module MeltRecords {
  import opened Outcomes
  import opened ProofHistory
  import Ledger

  const STELLAR_UNIT := "usdc"
  const MAX_QUOTE_TTL: nat := 900
  const MAX_EVENTS: nat := 1024

  // ---------------------------------------------------------------- values

  datatype Proof = Proof(y: nat, keysetId: string, amount: nat)

  /** Stored proofs are in increasing order of y. */
  datatype Reservation = Reservation(
    invoiceId: string, operatorId: string, mintUrl: string, unit: string,
    proofs: seq<Proof>, keysetObservedAt: nat, reservedAt: nat)

  datatype Route = Route(mode: Ledger.Mode, destination: string)

  datatype InvoiceRow = InvoiceRow(invoice: Ledger.Invoice, unit: string, routes: map<(string, string), Route>)

  function RouteIn(i: InvoiceRow, r: Reservation): Option<Route> {
    var at := (r.operatorId, r.mintUrl);
    if at in i.routes then Some(i.routes[at]) else None
  }

  datatype QuoteState = Unpaid | Pending | Paid

  /** A SEP-7 payment request with the amount and destination parsed out of it. */
  datatype Request = Request(text: string, amount: nat, destination: string)

  datatype Terms = Terms(mintUrl: string, amount: nat, request: string, quoteId: string, feeReserve: nat, expiry: nat)

  datatype Quote = Quote(terms: Terms, observedAt: nat, state: QuoteState)

  /** A stored quote observation; its terms are those of the outcome. */
  datatype Sighting = Sighting(observedAt: nat, state: QuoteState)

  datatype Attempt = Attempt(attemptId: string, request: Request, startedAt: nat)

  datatype QuoteOutcome = Ambiguous(reason: string, recordedAt: nat) | Quoted(terms: Terms, recordedAt: nat)

  datatype EffectKind = Swap | Melt(reference: string, referenceExpiresAt: nat)

  datatype Effect = Effect(effectId: string, dispatchFingerprint: string, startedAt: nat, kind: EffectKind)

  datatype State = Reserved | DispatchStarted | PendingOutcome | NeedsAttention | Consumed | Released

  datatype AttentionReason = TransportAmbiguous | OperatorStateUnknown | OperatorResponseInvalid

  datatype Evidence =
    | OperatorPending | Attention(reason: AttentionReason) | SwapSucceeded | MeltPaid
    | SwapRejected | MeltUnpaidAfterExpiry | PreDispatch

  /** `snapshotAt` names the proof-state observation the event refers to, one per time. */
  datatype Event = Event(
    eventId: string, state: State, recordedAt: nat, effectId: Option<string>, evidence: Option<Evidence>,
    evidenceAt: Option<nat>, journalId: Option<string>, snapshotAt: Option<nat>)

  datatype PaymentRow = PaymentRow(
    reservation: Reservation, custodyAt: Option<nat>, attempt: Option<Attempt>, outcome: Option<QuoteOutcome>,
    sightings: seq<Sighting>, snapshots: History, effect: Option<Effect>, events: seq<Event>)

  function Last<T>(s: seq<T>): T
    requires s != []
  {
    s[|s| - 1]
  }

  function StateAfter(events: seq<Event>): State {
    if events == [] then Reserved else Last(events).state
  }

  function Current(row: PaymentRow): State {
    StateAfter(row.events)
  }

  predicate Terminal(row: PaymentRow) {
    Current(row).Consumed? || Current(row).Released?
  }

  predicate Active(row: PaymentRow) {
    Current(row).DispatchStarted? || Current(row).PendingOutcome? || Current(row).NeedsAttention?
  }

  // --------------------------------------------------------- quote evidence

  /** The history check of mapCashuStellarMeltQuotedEvidenceRecord. */
  predicate SightingsReadable(startedAt: nat, expiry: nat, recordedAt: nat, sightings: seq<Sighting>) {
    && sightings != []
    && sightings[0] == Sighting(recordedAt, Unpaid)
    && startedAt <= recordedAt < expiry && expiry - startedAt <= MAX_QUOTE_TTL
    && (forall k :: 0 < k < |sightings| ==>
          && sightings[k - 1].observedAt < sightings[k].observedAt
          && (sightings[k - 1].state.Paid? ==> sightings[k].state.Paid?))
  }

  predicate HasQuotedEvidence(row: PaymentRow) {
    && row.attempt.Some? && row.outcome.Some? && row.outcome.value.Quoted?
    && SightingsReadable(row.attempt.value.startedAt, row.outcome.value.terms.expiry,
                         row.outcome.value.recordedAt, row.sightings)
  }

  /** The last observation at or before `t`, in observation order. */
  function LastAtOrBefore(sightings: seq<Sighting>, t: nat): Option<Sighting> {
    if sightings == [] then None
    else if Last(sightings).observedAt <= t then Some(Last(sightings))
    else LastAtOrBefore(sightings[..|sightings| - 1], t)
  }

  predicate AttemptMatches(row: PaymentRow, invoice: Ledger.Invoice)
    requires row.attempt.Some?
  {
    var a := row.attempt.value;
    && a.request.amount == invoice.amount
    && row.reservation.unit == STELLAR_UNIT
    && invoice.createdAt <= a.startedAt < invoice.expiresAt
    && row.reservation.reservedAt <= a.startedAt
  }

  /** The immutable terms that tie a melt effect to its quote and its settlement route. */
  predicate TermsMatchEffect(row: PaymentRow, invoice: Ledger.Invoice, route: Route, effect: Effect)
    requires HasQuotedEvidence(row)
  {
    && AttemptMatches(row, invoice)
    && row.attempt.value.request.destination == route.destination
    && effect.kind.Melt?
    && row.outcome.value.terms.quoteId == effect.kind.reference
    && row.outcome.value.terms.expiry == effect.kind.referenceExpiresAt
    && row.outcome.value.recordedAt <= effect.startedAt
  }

  predicate UnpaidAtDispatch(row: PaymentRow, startedAt: nat) {
    match LastAtOrBefore(row.sightings, startedAt)
    case None => false
    case Some(s) => s.state.Unpaid?
  }

  // ------------------------------------------------------- lifecycle events

  predicate TransitionAllowed(current: State, next: State) {
    match current
    case Reserved => next.DispatchStarted? || next.Released?
    case DispatchStarted => next in {PendingOutcome, NeedsAttention, Consumed, Released}
    case PendingOutcome => next in {PendingOutcome, NeedsAttention, Consumed, Released}
    case NeedsAttention => next in {PendingOutcome, NeedsAttention, Consumed, Released}
    case _ => false
  }

  predicate EvidenceMatchesEffect(evidence: Option<Evidence>, kind: EffectKind) {
    match evidence
    case Some(OperatorPending) => kind.Melt?
    case Some(SwapSucceeded) => kind.Swap?
    case Some(SwapRejected) => kind.Swap?
    case Some(MeltPaid) => kind.Melt?
    case Some(MeltUnpaidAfterExpiry) => kind.Melt?
    case _ => true
  }

  predicate EvidenceTimeMatches(evidence: Option<Evidence>, at: nat, kind: EffectKind) {
    evidence == Some(MeltUnpaidAfterExpiry) ==> kind.Melt? && kind.referenceExpiresAt <= at
  }

  /** createPublicEvent accepts the stored columns. */
  predicate PublicShape(e: Event) {
    && (e.state.Consumed? <==> e.journalId.Some?)
    && match e.state
       case Reserved => false
       case DispatchStarted => e.evidence.None? && e.evidenceAt.None?
       case PendingOutcome => e.evidence == Some(OperatorPending) && e.evidenceAt.Some?
       case NeedsAttention => e.evidence.Some? && e.evidence.value.Attention? && e.evidenceAt.Some?
       case Consumed => e.evidenceAt.Some? && e.snapshotAt.Some? && e.evidence in {Some(SwapSucceeded), Some(MeltPaid)}
       case Released =>
         if e.evidence == Some(PreDispatch) then e.evidenceAt.None? && e.snapshotAt.None?
         else e.evidenceAt.Some? && e.snapshotAt.Some? && e.evidence in {Some(SwapRejected), Some(MeltUnpaidAfterExpiry)}
  }

  predicate EventMatchesEffect(e: Event, effect: Option<Effect>) {
    if e.state.Released? && e.evidence == Some(PreDispatch) then effect.None?
    else
      && effect.Some? && effect.value.startedAt <= e.recordedAt
      && (e.evidenceAt.Some? ==> effect.value.startedAt <= e.evidenceAt.value)
      && EvidenceMatchesEffect(e.evidence, effect.value.kind)
      && (e.evidenceAt.Some? ==> EvidenceTimeMatches(e.evidence, e.evidenceAt.value, effect.value.kind))
  }

  predicate Uniform(states: seq<ProofState>, wanted: ProofState) {
    states != [] && forall i :: 0 <= i < |states| ==> states[i] == wanted
  }

  /** validateProofStateEvidenceByFingerprint: the snapshot at `at` covers the reservation uniformly. */
  predicate SnapshotSupports(row: PaymentRow, at: nat, wanted: ProofState) {
    && at in row.snapshots
    && |row.snapshots[at]| == |row.reservation.proofs|
    && Uniform(row.snapshots[at], wanted)
    && row.reservation.reservedAt <= at
  }

  /** mapEvent accepts the row. */
  predicate EventReadable(row: PaymentRow, e: Event) {
    && e.effectId == (if row.effect.Some? then Some(row.effect.value.effectId) else None)
    && (e.snapshotAt.Some? ==> SnapshotSupports(row, e.snapshotAt.value, if e.state.Consumed? then Spent else Unspent))
    && PublicShape(e)
    && row.reservation.reservedAt <= e.recordedAt
    && (e.evidenceAt.Some? ==> e.evidenceAt.value <= e.recordedAt)
    && EventMatchesEffect(e, row.effect)
  }

  /** The step of loadLifecycle's loop at position `k`. */
  predicate StepReadable(row: PaymentRow, k: nat)
    requires k < |row.events|
  {
    && EventReadable(row, row.events[k])
    && TransitionAllowed(StateAfter(row.events[..k]), row.events[k].state)
    && (k > 0 ==> row.events[k - 1].recordedAt <= row.events[k].recordedAt)
  }

  predicate StartsLikeItsEffect(row: PaymentRow) {
    if row.effect.None? then forall k :: 0 <= k < |row.events| ==> row.events[k].state.Released?
    else row.events != [] && row.events[0].state.DispatchStarted?
  }

  predicate EventsReadable(row: PaymentRow) {
    && (forall k :: 0 <= k < |row.events| ==> StepReadable(row, k))
    && StartsLikeItsEffect(row)
  }

  /** mapEffect accepts the row. */
  predicate EffectReadable(row: PaymentRow, invoice: Ledger.Invoice) {
    row.effect.Some? ==>
      var e := row.effect.value;
      && (e.kind.Melt? ==> e.startedAt < e.kind.referenceExpiresAt)
      && row.reservation.reservedAt <= e.startedAt
      && invoice.createdAt <= e.startedAt < invoice.expiresAt
  }

  predicate InvoiceReadable(invoice: Ledger.Invoice) {
    invoice.paidAt.Some? ==> invoice.createdAt <= invoice.paidAt.value < invoice.expiresAt
  }

  // ----------------------------------------------------- facts about sightings

  /** Observation times are strictly increasing. */
  lemma {:induction false} SightingsIncrease(startedAt: nat, expiry: nat, recordedAt: nat, s: seq<Sighting>, i: nat, k: nat)
    requires SightingsReadable(startedAt, expiry, recordedAt, s) && i < k < |s|
    ensures s[i].observedAt < s[k].observedAt
    ensures s[i].state.Paid? ==> s[k].state.Paid?
  {
    if i + 1 < k { SightingsIncrease(startedAt, expiry, recordedAt, s, i, k - 1); }
  }

  /** PAID absorbs: an UNPAID latest observation means the quote was never seen PAID. */
  lemma LatestUnpaidMeansNeverPaid(startedAt: nat, expiry: nat, recordedAt: nat, s: seq<Sighting>)
    requires SightingsReadable(startedAt, expiry, recordedAt, s) && !Last(s).state.Paid?
    ensures forall i :: 0 <= i < |s| ==> !s[i].state.Paid?
  {
    forall i | 0 <= i < |s| ensures !s[i].state.Paid? {
      if i < |s| - 1 { SightingsIncrease(startedAt, expiry, recordedAt, s, i, |s| - 1); }
    }
  }

  /** What is read at or before `t` does not change when a later observation arrives. */
  lemma LaterSightingInvisible(s: seq<Sighting>, extra: Sighting, t: nat)
    requires t < extra.observedAt
    ensures LastAtOrBefore(s + [extra], t) == LastAtOrBefore(s, t)
  {
    assert (s + [extra])[..|s|] == s;
  }

  lemma EarlierSightingShows(s: seq<Sighting>, extra: Sighting, t: nat)
    requires extra.observedAt <= t
    ensures LastAtOrBefore(s + [extra], t) == Some(extra)
  {
  }
}
