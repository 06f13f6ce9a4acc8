/**
 * The acquirer's payment tables and every repository operation on them, each
 * one atomic transaction: reservation, custody, quote attempt, observations,
 * operator effect, lifecycle events and accounting. Uniqueness rules and
 * trigger-maintained claims come from postgres-schema.ts.
 */
module MeltStore {
  import opened Outcomes
  import opened MeltRecords
  import ProofHistory
  import Ledger

  const MAX_PAYMENT_PROOFS: nat := 128
  const SETTLEMENT_ASSET := "stellar-testnet-usdc-circle"

  // ---------------------------------------------------------------- tables

  /** Unique keys other than the payment id: primary keys and unique constraints of the tables. */
  datatype Key =
    | AttemptKey(id: string)
    | QuoteKey(mintUrl: string, quoteId: string)
    | EffectKey(id: string)
    | ReferenceKey(mintUrl: string, reference: string)
    | DispatchKey(mintUrl: string, isMelt: bool, fingerprint: string)
    | EventKey(id: string)
    | JournalKey(id: string)

  datatype Tables = Tables(
    invoices: map<string, InvoiceRow>,
    payments: map<string, PaymentRow>,
    proofClaims: map<(string, nat), string>,
    invoiceClaims: map<string, string>,
    journals: map<string, Ledger.Accepted>,
    keys: map<Key, string>)

  const NoTables := Tables(map[], map[], map[], map[], map[], map[])

  datatype StoreError =
    | InvalidInput | InvalidRecord | InvalidTransition | ReservationNotFound | EventConflict | EffectConflict
    | AccountingConflict | InvoiceClaimed | ProofConflict | QuoteEvidenceMissing | QuoteEvidenceMismatch
    | ProofStateEvidenceMissing | ProofStateRefused(error: ProofHistory.PersistError) | ScopeMismatch
    | ReservationReleased | PaymentConflict | InvoiceNotOpen | WindowClosed | RouteNotAccepted
    | KeysetEvidenceMissing | CustodyNotFound | TermsMismatch | ReservationNotActive | AttemptConflict
    | AttemptNotFound | QuoteConflict | ObservationConflict | StorageConflict

  /** A committed transaction; `replayed` ones leave the tables as they were. */
  datatype Committed = Committed(tables: Tables, replayed: bool)

  type Outcome = Result<Committed, StoreError>

  function Replayed(t: Tables): Outcome { Ok(Committed(t, true)) }

  function Fresh(t: Tables): Outcome { Ok(Committed(t, false)) }

  // ---------------------------------------------------------- table access

  predicate HasInvoice(t: Tables, row: PaymentRow) {
    row.reservation.invoiceId in t.invoices
  }

  function InvoiceOf(t: Tables, row: PaymentRow): Ledger.Invoice
    requires HasInvoice(t, row)
  {
    t.invoices[row.reservation.invoiceId].invoice
  }

  function RouteOf(t: Tables, row: PaymentRow): Option<Route>
    requires HasInvoice(t, row)
  {
    RouteIn(t.invoices[row.reservation.invoiceId], row.reservation)
  }

  function ClaimKeys(row: PaymentRow): set<(string, nat)> {
    set i | 0 <= i < |row.reservation.proofs| :: (row.reservation.mintUrl, row.reservation.proofs[i].y)
  }

  function ProofClaimsOf(t: Tables, p: string): set<(string, nat)> {
    set k | k in t.proofClaims && t.proofClaims[k] == p
  }

  function InvoiceClaimsOf(t: Tables, p: string): set<string> {
    set i | i in t.invoiceClaims && t.invoiceClaims[i] == p
  }

  function WithRow(t: Tables, p: string, row: PaymentRow): Tables {
    t.(payments := t.payments[p := row])
  }

  // ------------------------------------------------------- reading it back

  /** assertProjection: active claims match the lifecycle state. */
  predicate ProjectionReadable(t: Tables, p: string)
    requires p in t.payments
  {
    var row := t.payments[p];
    && row.reservation.proofs != []
    && if Current(row).Released? then ProofClaimsOf(t, p) == {} && InvoiceClaimsOf(t, p) == {}
       else
         && |ProofClaimsOf(t, p)| == |row.reservation.proofs|
         && |InvoiceClaimsOf(t, p)| == if row.effect.Some? then 1 else 0
  }

  /** The quote-independent part of what loadReservation and loadLifecycle require. */
  predicate RecordsReadable(t: Tables, p: string)
    requires p in t.payments
  {
    var row := t.payments[p];
    && HasInvoice(t, row)
    && InvoiceReadable(InvoiceOf(t, row))
    && EffectReadable(row, InvoiceOf(t, row))
    && EventsReadable(row)
    && ProjectionReadable(t, p)
  }

  /** assertMeltQuoteEvidence in "stored" mode, without its last condition. */
  predicate QuoteTermsReadable(t: Tables, p: string)
    requires p in t.payments
  {
    var row := t.payments[p];
    row.effect.Some? && row.effect.value.kind.Melt? ==>
      && HasQuotedEvidence(row)
      && HasInvoice(t, row) && RouteOf(t, row).Some?
      && TermsMatchEffect(row, InvoiceOf(t, row), RouteOf(t, row).value, row.effect.value)
  }

  /** The last condition: the quote seen at dispatch time was UNPAID. */
  predicate DispatchQuoteReadable(row: PaymentRow) {
    row.effect.Some? && row.effect.value.kind.Melt? ==> UnpaidAtDispatch(row, row.effect.value.startedAt)
  }

  /** loadReservation and loadLifecycle succeed. */
  predicate Readable(t: Tables, p: string)
    requires p in t.payments
  {
    RecordsReadable(t, p) && QuoteTermsReadable(t, p) && DispatchQuoteReadable(t.payments[p])
  }

  // --------------------------------------------------------------- invoices

  function CreateInvoice(t: Tables, id: string, row: InvoiceRow): Outcome {
    if id in t.invoices then Err(StorageConflict)
    else if row.invoice.id != id || row.invoice.paidAt.Some? || !Ledger.ValidInvoice(row.invoice) then Err(InvalidInput)
    else Fresh(t.(invoices := t.invoices[id := row]))
  }

  // ------------------------------------------------------------ reservation

  function Insert(proof: Proof, sorted: seq<Proof>): seq<Proof> {
    if sorted == [] || proof.y <= sorted[0].y then [proof] + sorted
    else [sorted[0]] + Insert(proof, sorted[1..])
  }

  function SortByY(proofs: seq<Proof>): seq<Proof> {
    if proofs == [] then [] else Insert(proofs[0], SortByY(proofs[1..]))
  }

  predicate DistinctYs(proofs: seq<Proof>) {
    forall i, k :: 0 <= i < k < |proofs| ==> proofs[i].y != proofs[k].y
  }

  function Gross(proofs: seq<Proof>): nat {
    if proofs == [] then 0 else Gross(proofs[..|proofs| - 1]) + Last(proofs).amount
  }

  /** createReservation: bounds, distinct proofs, ordered proofs. */
  function NormalReservation(r: Reservation): Option<Reservation> {
    if r.proofs == [] || |r.proofs| > MAX_PAYMENT_PROOFS || !DistinctYs(r.proofs)
       || Gross(r.proofs) > Ledger.MAX_SAFE_INTEGER || r.keysetObservedAt > r.reservedAt
    then None
    else Some(r.(proofs := SortByY(r.proofs)))
  }

  function Reserve(t: Tables, p: string, requested: Reservation, keysetsObserved: bool): Outcome {
    match NormalReservation(requested)
    case None => Err(InvalidInput)
    case Some(r) =>
      var blank := PaymentRow(r, None, None, None, [], map[], None, []);
      if p in t.payments then
        var row := t.payments[p];
        if row.reservation != r then Err(PaymentConflict)
        else if Current(row).Released? then Err(ReservationReleased)
        else if |ProofClaimsOf(t, p)| != |r.proofs| then Err(InvalidRecord)
        else Replayed(t)
      else if r.invoiceId !in t.invoices || t.invoices[r.invoiceId].invoice.paidAt.Some? then Err(InvoiceNotOpen)
      else if t.invoices[r.invoiceId].unit != r.unit then Err(InvalidInput)
      else if !(InvoiceOf(t, blank).createdAt <= r.reservedAt < InvoiceOf(t, blank).expiresAt) then Err(WindowClosed)
      else if RouteOf(t, blank).None? then Err(RouteNotAccepted)
      else if !keysetsObserved then Err(KeysetEvidenceMissing)
      else if exists k :: k in ClaimKeys(blank) && k in t.proofClaims then Err(ProofConflict)
      else
        Fresh(WithRow(t, p, blank).(proofClaims := t.proofClaims + (map k | k in ClaimKeys(blank) :: p)))
  }

  /** The insert trigger of cashu_bearer_proof_custody. */
  function StoreCustody(t: Tables, p: string, createdAt: nat, proofCount: nat): Outcome {
    if p !in t.payments then Err(ReservationNotFound)
    else
      var row := t.payments[p];
      if row.custodyAt.Some? || !HasInvoice(t, row) then Err(StorageConflict)
      else
        var invoice := InvoiceOf(t, row);
        if invoice.paidAt.Some? || createdAt < row.reservation.reservedAt
           || !(invoice.createdAt <= createdAt < invoice.expiresAt)
           || row.events != [] || row.effect.Some? || row.reservation.proofs == []
           || proofCount != |row.reservation.proofs| || |ProofClaimsOf(t, p)| != |row.reservation.proofs|
        then Err(StorageConflict)
        else Fresh(WithRow(t, p, row.(custodyAt := Some(createdAt))))
  }

  // ----------------------------------------------------------------- quotes

  /** mapAttempt accepts the stored attempt. */
  predicate AttemptReadable(row: PaymentRow) {
    row.attempt.Some? ==>
      match row.outcome
      case None => row.sightings == []
      case Some(Ambiguous(_, at)) => row.sightings == [] && row.attempt.value.startedAt <= at
      case Some(Quoted(_, _)) => HasQuotedEvidence(row)
  }

  function CheckedAttempt(row: PaymentRow, done: Outcome): Outcome {
    if AttemptReadable(row) then done else Err(InvalidRecord)
  }

  function BeginQuote(t: Tables, p: string, attempt: Attempt): Outcome {
    if p !in t.payments || !HasInvoice(t, t.payments[p]) || RouteOf(t, t.payments[p]).None? then Err(ReservationNotFound)
    else
      var row := t.payments[p];
      var key := AttemptKey(attempt.attemptId);
      if row.attempt.Some? || key in t.keys then
        if row.attempt == Some(attempt) && key in t.keys && t.keys[key] == p then CheckedAttempt(row, Replayed(t))
        else Err(AttemptConflict)
      else
        var invoice := InvoiceOf(t, row);
        var route := RouteOf(t, row).value;
        if row.custodyAt.None? then Err(CustodyNotFound)
        else if row.reservation.unit != STELLAR_UNIT || t.invoices[row.reservation.invoiceId].unit != STELLAR_UNIT then
          Err(InvalidRecord)
        else if !route.mode.ImmediateConversion? || route.destination != attempt.request.destination then Err(TermsMismatch)
        else if invoice.amount != attempt.request.amount then Err(TermsMismatch)
        else if invoice.paidAt.Some? || attempt.startedAt < row.reservation.reservedAt
                || attempt.startedAt < row.custodyAt.value
                || !(invoice.createdAt <= attempt.startedAt < invoice.expiresAt) then Err(WindowClosed)
        else if row.reservation.proofs == [] || |ProofClaimsOf(t, p)| != |row.reservation.proofs|
                || row.effect.Some? || row.events != [] then Err(ReservationNotActive)
        else
          var started := row.(attempt := Some(attempt));
          CheckedAttempt(started, Fresh(WithRow(t, p, started).(keys := t.keys[key := p])))
  }

  /** lockAttempt: exactly one attempt matches, by both its id and its payment. */
  function LockAttempt(t: Tables, p: string, attemptId: string): Result<Attempt, StoreError> {
    if p !in t.payments then Err(ReservationNotFound)
    else
      var row := t.payments[p];
      if row.attempt.None? && AttemptKey(attemptId) !in t.keys then Err(AttemptNotFound)
      else if row.attempt.None? || row.attempt.value.attemptId != attemptId then Err(AttemptConflict)
      else Ok(row.attempt.value)
  }

  predicate OutcomeWritable(row: PaymentRow) {
    row.custodyAt.Some? && row.effect.None? && row.events == []
  }

  function RecordAmbiguous(t: Tables, p: string, attemptId: string, reason: string, recordedAt: nat): Outcome {
    match LockAttempt(t, p, attemptId)
    case Err(e) => Err(e)
    case Ok(attempt) =>
      var row := t.payments[p];
      if recordedAt < attempt.startedAt then Err(InvalidInput)
      else if row.outcome.Some? then
        if row.outcome.value.Quoted? then Err(InvalidTransition)
        else if row.outcome.value != Ambiguous(reason, recordedAt) then Err(QuoteConflict)
        else CheckedAttempt(row, Replayed(t))
      else if !OutcomeWritable(row) then Err(InvalidTransition)
      else
        var after := row.(outcome := Some(Ambiguous(reason, recordedAt)));
        CheckedAttempt(after, Fresh(WithRow(t, p, after)))
  }

  predicate MatchesAttempt(row: PaymentRow, attempt: Attempt, terms: Terms) {
    && terms.mintUrl == row.reservation.mintUrl
    && terms.amount == attempt.request.amount
    && terms.request == attempt.request.text
  }

  function RecordQuote(t: Tables, p: string, attemptId: string, quote: Quote): Outcome {
    match LockAttempt(t, p, attemptId)
    case Err(e) => Err(e)
    case Ok(attempt) =>
      var row := t.payments[p];
      var first := Sighting(quote.observedAt, quote.state);
      if !MatchesAttempt(row, attempt, quote.terms) then Err(TermsMismatch)
      else if !quote.state.Unpaid? || quote.observedAt < attempt.startedAt || quote.terms.expiry <= quote.observedAt
              || quote.terms.expiry > attempt.startedAt + MAX_QUOTE_TTL then Err(InvalidInput)
      else if row.outcome.Some? then
        if row.outcome.value.Ambiguous? then Err(InvalidTransition)
        else if row.outcome.value != Quoted(quote.terms, quote.observedAt) || first !in row.sightings then Err(QuoteConflict)
        else CheckedAttempt(row, Replayed(t))
      else if !OutcomeWritable(row) then Err(InvalidTransition)
      else if QuoteKey(quote.terms.mintUrl, quote.terms.quoteId) in t.keys then Err(StorageConflict)
      else
        var after := row.(outcome := Some(Quoted(quote.terms, quote.observedAt)), sightings := row.sightings + [first]);
        CheckedAttempt(after, Fresh(WithRow(t, p, after).(
          keys := t.keys[QuoteKey(quote.terms.mintUrl, quote.terms.quoteId) := p])))
  }

  predicate SightedAt(sightings: seq<Sighting>, at: nat) {
    exists k :: 0 <= k < |sightings| && sightings[k].observedAt == at
  }

  function ObserveQuote(t: Tables, p: string, attemptId: string, quote: Quote): Outcome {
    match LockAttempt(t, p, attemptId)
    case Err(e) => Err(e)
    case Ok(attempt) =>
      var row := t.payments[p];
      var seen := Sighting(quote.observedAt, quote.state);
      if row.outcome.None? || row.outcome.value.Ambiguous? then Err(InvalidTransition)
      else if !MatchesAttempt(row, attempt, quote.terms) || row.outcome.value.terms != quote.terms then Err(TermsMismatch)
      else if SightedAt(row.sightings, quote.observedAt) then
        if seen in row.sightings then CheckedAttempt(row, Replayed(t)) else Err(ObservationConflict)
      else if Terminal(row) then Err(InvalidTransition)
      else if row.sightings == [] || quote.observedAt <= Last(row.sightings).observedAt
              || (Last(row.sightings).state.Paid? && !quote.state.Paid?) then Err(InvalidTransition)
      else
        var after := row.(sightings := row.sightings + [seen]);
        CheckedAttempt(after, Fresh(WithRow(t, p, after)))
  }

  // ------------------------------------------------------------ proof states

  /** A proof-state observation arrives with the scope it was made in and the ys it covers. */
  datatype ProofReport = ProofReport(
    operatorId: string, mintUrl: string, unit: string, ys: seq<nat>, observation: ProofHistory.Observation)

  function Ys(proofs: seq<Proof>): seq<nat> {
    seq(|proofs|, i requires 0 <= i < |proofs| => proofs[i].y)
  }

  ghost function ObserveProofs(t: Tables, p: string, report: ProofReport): Outcome {
    if p !in t.payments then Err(ReservationNotFound)
    else
      var row := t.payments[p];
      var o := report.observation;
      if report.operatorId != row.reservation.operatorId || report.mintUrl != row.reservation.mintUrl
         || report.unit != row.reservation.unit || o.observedAt < row.reservation.reservedAt
         || report.ys != Ys(row.reservation.proofs) || |o.states| != |report.ys| then Err(ScopeMismatch)
      else match ProofHistory.Persist(row.snapshots, o, Terminal(row))
        case Err(e) => Err(ProofStateRefused(e))
        case Ok(done) => Ok(Committed(WithRow(t, p, row.(snapshots := done.history)), done.replayed))
  }

  // ---------------------------------------------------------- event replay

  function FindEvent(events: seq<Event>, id: string): Option<Event> {
    if events == [] then None
    else if Last(events).eventId == id then Some(Last(events))
    else FindEvent(events[..|events| - 1], id)
  }

  /** replayEvent: None when the event id is unused. */
  function Replay(t: Tables, p: string, draft: Event, effect: Option<Effect>): Option<Outcome>
    requires p in t.payments
  {
    var key := EventKey(draft.eventId);
    if key !in t.keys then None
    else if t.keys[key] != p then Some(Err(EventConflict))
    else if !Readable(t, p) then Some(Err(InvalidRecord))
    else if FindEvent(t.payments[p].events, draft.eventId) != Some(draft) then Some(Err(EventConflict))
    else if effect.Some? && t.payments[p].effect != effect then Some(Err(EffectConflict))
    else Some(Replayed(t))
  }

  /** insertEvent, with the trigger that destroys custody at a terminal state. */
  function WithEvent(t: Tables, p: string, draft: Event): Tables
    requires p in t.payments
  {
    var row := t.payments[p];
    var custody := if draft.state.Consumed? || draft.state.Released? then None else row.custodyAt;
    WithRow(t, p, row.(events := row.events + [draft], custodyAt := custody)).(keys := t.keys[EventKey(draft.eventId) := p])
  }

  /** releaseActiveClaims. */
  function WithoutClaims(t: Tables, p: string): Tables {
    t.(proofClaims := t.proofClaims - ProofClaimsOf(t, p), invoiceClaims := t.invoiceClaims - InvoiceClaimsOf(t, p))
  }

  /** Every write ends by loading the lifecycle back; a failed load rolls the transaction back. */
  function CheckedLoad(t: Tables, p: string): Outcome
    requires p in t.payments
  {
    if Readable(t, p) then Fresh(t) else Err(InvalidRecord)
  }

  // --------------------------------------------------------- operator effect

  function StartDraft(eventId: string, effect: Effect): Event {
    Event(eventId, DispatchStarted, effect.startedAt, Some(effect.effectId), None, None, None, None)
  }

  /** assertMeltQuoteEvidence in "dispatch" mode. */
  function DispatchEvidence(t: Tables, row: PaymentRow, effect: Effect): Option<StoreError>
    requires HasInvoice(t, row)
  {
    if row.attempt.None? || row.outcome.None? then Some(QuoteEvidenceMissing)
    else if !HasQuotedEvidence(row) || RouteOf(t, row).None? then Some(InvalidRecord)
    else if !TermsMatchEffect(row, InvoiceOf(t, row), RouteOf(t, row).value, effect)
            || !UnpaidAtDispatch(row, effect.startedAt)
            || !Last(row.sightings).state.Unpaid? || effect.startedAt < Last(row.sightings).observedAt
    then Some(QuoteEvidenceMismatch)
    else None
  }

  function EffectKeys(mintUrl: string, effect: Effect): set<Key> {
    {EffectKey(effect.effectId), DispatchKey(mintUrl, effect.kind.Melt?, effect.dispatchFingerprint)}
    + if effect.kind.Melt? then {ReferenceKey(mintUrl, effect.kind.reference)} else {}
  }

  function WithEffect(t: Tables, p: string, effect: Effect): Tables
    requires p in t.payments
  {
    var row := t.payments[p];
    WithRow(t, p, row.(effect := Some(effect))).(
      invoiceClaims := t.invoiceClaims[row.reservation.invoiceId := p],
      keys := t.keys + (map k | k in EffectKeys(row.reservation.mintUrl, effect) :: p))
  }

  /** The rows written by a start: the effect with its claims, then its dispatch event. */
  function StartWritten(t: Tables, p: string, eventId: string, effect: Effect): Tables
    requires p in t.payments
  {
    WithEvent(WithEffect(t, p, effect), p, StartDraft(eventId, effect))
  }

  function StartEffect(t: Tables, p: string, eventId: string, effect: Effect): Outcome {
    if effect.kind.Melt? && effect.kind.referenceExpiresAt <= effect.startedAt then Err(InvalidInput)
    else if p !in t.payments then Err(ReservationNotFound)
    else
      var row := t.payments[p];
      var draft := StartDraft(eventId, effect);
      match Replay(t, p, draft, Some(effect))
      case Some(done) => done
      case None =>
        if !Readable(t, p) then Err(InvalidRecord)
        else if !Current(row).Reserved? then Err(InvalidTransition)
        else
          var invoice := InvoiceOf(t, row);
          if invoice.paidAt.Some? || !(invoice.createdAt <= effect.startedAt < invoice.expiresAt)
             || effect.startedAt < row.reservation.reservedAt then Err(InvalidTransition)
          else if effect.kind.Melt? && DispatchEvidence(t, row, effect).Some? then Err(DispatchEvidence(t, row, effect).value)
          else if row.effect.Some? || !(EffectKeys(row.reservation.mintUrl, effect) !! t.keys.Keys) then Err(EffectConflict)
          else if row.reservation.invoiceId in t.invoiceClaims then Err(InvoiceClaimed)
          else CheckedLoad(StartWritten(t, p, eventId, effect), p)
  }

  // -------------------------------------------------------------- transitions

  /** What persistTransitionInTransaction requires of a draft that follows an effect. */
  predicate FollowsEffect(row: PaymentRow, draft: Event) {
    && row.effect.Some? && draft.effectId == Some(row.effect.value.effectId)
    && Active(row) && row.events != [] && Last(row.events).recordedAt <= draft.recordedAt
    && draft.evidenceAt.Some?
    && row.effect.value.startedAt <= draft.evidenceAt.value <= draft.recordedAt
    && EvidenceMatchesEffect(draft.evidence, row.effect.value.kind)
    && EvidenceTimeMatches(draft.evidence, draft.evidenceAt.value, row.effect.value.kind)
    && (draft.snapshotAt.Some? ==>
          draft.snapshotAt.value in row.snapshots
          && draft.evidenceAt.value <= draft.snapshotAt.value <= draft.recordedAt)
  }

  function PersistTransition(t: Tables, p: string, draft: Event): Outcome
    requires p in t.payments
  {
    match Replay(t, p, draft, None)
    case Some(done) => done
    case None =>
      var row := t.payments[p];
      if !Readable(t, p) then Err(InvalidRecord)
      else if draft.state.Released? && draft.evidence == Some(PreDispatch) then
        if !Current(row).Reserved? || row.effect.Some? || draft.recordedAt < row.reservation.reservedAt then
          Err(InvalidTransition)
        else CheckedLoad(WithoutClaims(WithEvent(t, p, draft), p), p)
      else if !FollowsEffect(row, draft) then Err(InvalidTransition)
      else if |row.events| >= MAX_EVENTS then Err(StorageConflict)
      else
        var written := WithEvent(t, p, draft);
        CheckedLoad(if draft.state.Released? then WithoutClaims(written, p) else written, p)
  }

  function PendingDraft(effectId: string, eventId: string, evidenceAt: nat, recordedAt: nat): Event {
    Event(eventId, PendingOutcome, recordedAt, Some(effectId), Some(OperatorPending), Some(evidenceAt), None, None)
  }

  function AttentionDraft(effectId: string, eventId: string, reason: AttentionReason, evidenceAt: nat, recordedAt: nat): Event {
    Event(eventId, NeedsAttention, recordedAt, Some(effectId), Some(Attention(reason)), Some(evidenceAt), None, None)
  }

  function RecordEvent(t: Tables, p: string, draft: Event): Outcome {
    if p !in t.payments then Err(ReservationNotFound) else PersistTransition(t, p, draft)
  }

  /** assertEffectEvidence, with assertMeltPaidEvidence for melt_paid. */
  function EffectEvidence(t: Tables, p: string, effectId: string, evidence: Evidence, evidenceAt: nat, recordedAt: nat)
    : Option<StoreError>
    requires p in t.payments
  {
    var row := t.payments[p];
    if !Readable(t, p) then Some(InvalidRecord)
    else if row.effect.None? || row.effect.value.effectId != effectId
            || !EvidenceMatchesEffect(Some(evidence), row.effect.value.kind)
            || !EvidenceTimeMatches(Some(evidence), evidenceAt, row.effect.value.kind)
            || evidenceAt < row.effect.value.startedAt || evidenceAt > recordedAt
    then Some(InvalidTransition)
    else if evidence.MeltPaid? then
      if !SightedAt(row.sightings, evidenceAt) then Some(QuoteEvidenceMissing)
      else if Sighting(evidenceAt, Paid) !in row.sightings then Some(QuoteEvidenceMismatch)
      else None
    else None
  }

  // -------------------------------------------------------------- acceptance

  datatype AcceptInput = AcceptInput(
    effectId: string, eventId: string, evidenceAt: nat, fee: nat, journalId: string,
    proofStateAt: nat, recordedAt: nat)

  function AcceptDraft(input: AcceptInput): Event {
    Event(input.eventId, Consumed, input.recordedAt, Some(input.effectId), Some(MeltPaid), Some(input.evidenceAt),
          Some(input.journalId), Some(input.proofStateAt))
  }

  function PaymentInputOf(row: PaymentRow, p: string, input: AcceptInput): Ledger.PaymentInput {
    Ledger.PaymentInput(input.proofStateAt, Ledger.SettlementAsset(SETTLEMENT_ASSET), input.recordedAt, input.fee,
                        input.journalId, row.reservation.operatorId, p, Ledger.ImmediateConversion)
  }

  predicate AccountingMatches(a: Ledger.Accepted, row: PaymentRow, p: string, input: AcceptInput) {
    && a.invoice.id == row.reservation.invoiceId
    && a.invoice.paidAt == Some(input.proofStateAt)
    && a.entry.effectiveAt == input.recordedAt
    && a.entry.id == input.journalId
    && a.entry.reference.paymentId == p
    && a.entry.reference.operatorId == row.reservation.operatorId
    && a.fee == input.fee
    && a.entry.reference.mode == Ledger.ImmediateConversion
  }

  function PersistAccepted(t: Tables, p: string, input: AcceptInput): Outcome
    requires p in t.payments && HasInvoice(t, t.payments[p])
  {
    var row := t.payments[p];
    var route := RouteOf(t, row);
    if InvoiceOf(t, row).paidAt.Some? then Err(InvalidTransition)
    else if route.None? then Err(InvalidRecord)
    else if !route.value.mode.ImmediateConversion? then Err(InvalidTransition)
    else match Ledger.AcceptInvoicePayment(InvoiceOf(t, row), PaymentInputOf(row, p, input))
      case Err(_) => Err(InvalidTransition)
      case Ok(accepted) =>
        var id := row.reservation.invoiceId;
        if JournalKey(input.journalId) in t.keys || p in t.journals then Err(StorageConflict)
        else
          Fresh(t.(invoices := t.invoices[id := t.invoices[id].(invoice := accepted.invoice)],
                   journals := t.journals[p := accepted],
                   keys := t.keys[JournalKey(input.journalId) := p]))
  }

  function Accept(t: Tables, p: string, input: AcceptInput): Outcome {
    if p !in t.payments then Err(ReservationNotFound)
    else
      var row := t.payments[p];
      var draft := AcceptDraft(input);
      match EffectEvidence(t, p, input.effectId, MeltPaid, input.evidenceAt, input.recordedAt)
      case Some(e) => Err(e)
      case None =>
        if !SnapshotSupports(row, input.proofStateAt, ProofHistory.Spent) then Err(ProofStateEvidenceMissing)
        else match Replay(t, p, draft, None)
          case Some(Err(e)) => Err(e)
          case Some(Ok(_)) =>
            if p !in t.journals then Err(InvalidRecord)
            else if !AccountingMatches(t.journals[p], row, p, input) then Err(AccountingConflict)
            else Replayed(t)
          case None =>
            match PersistAccepted(t, p, input)
            case Err(e) => Err(e)
            case Ok(paid) => PersistTransition(paid.tables, p, draft)
  }

  // ----------------------------------------------------------------- release

  datatype ReleaseInput =
    | ReleasePreDispatch(eventId: string, recordedAt: nat)
    | ReleaseAfterFailure(eventId: string, effectId: string, evidence: Evidence, evidenceAt: nat, proofStateAt: nat, recordedAt: nat)

  function ReleaseDraft(input: ReleaseInput): Event {
    match input
    case ReleasePreDispatch(id, at) => Event(id, Released, at, None, Some(PreDispatch), None, None, None)
    case ReleaseAfterFailure(id, effectId, evidence, evidenceAt, proofStateAt, at) =>
      Event(id, Released, at, Some(effectId), Some(evidence), Some(evidenceAt), None, Some(proofStateAt))
  }

  ghost predicate IsLatestSnapshot(h: ProofHistory.History, at: nat) {
    at in h && forall s :: s in h ==> s <= at
  }

  /** assertLatestMeltReleaseEvidence. */
  ghost function LatestReleaseEvidence(t: Tables, row: PaymentRow, evidenceAt: nat, proofStateAt: nat): Option<StoreError>
    requires HasInvoice(t, row) && row.effect.Some?
  {
    if !HasQuotedEvidence(row) || RouteOf(t, row).None?
       || !row.effect.value.kind.Melt?
       || !AttemptMatches(row, InvoiceOf(t, row))
       || row.attempt.value.request.destination != RouteOf(t, row).value.destination
       || row.outcome.value.terms.quoteId != row.effect.value.kind.reference
       || row.outcome.value.terms.expiry != row.effect.value.kind.referenceExpiresAt
       || Last(row.sightings) != Sighting(evidenceAt, Unpaid)
    then Some(InvalidTransition)
    else if !IsLatestSnapshot(row.snapshots, proofStateAt) then Some(ProofStateEvidenceMissing)
    else None
  }

  ghost function Release(t: Tables, p: string, input: ReleaseInput): Outcome {
    if input.ReleaseAfterFailure? && input.evidence !in {SwapRejected, MeltUnpaidAfterExpiry} then Err(InvalidInput)
    else if p !in t.payments then Err(ReservationNotFound)
    else match input
      case ReleasePreDispatch(_, _) => PersistTransition(t, p, ReleaseDraft(input))
      case ReleaseAfterFailure(_, effectId, evidence, evidenceAt, proofStateAt, recordedAt) =>
        var row := t.payments[p];
        match EffectEvidence(t, p, effectId, evidence, evidenceAt, recordedAt)
        case Some(e) => Err(e)
        case None =>
          if !SnapshotSupports(row, proofStateAt, ProofHistory.Unspent) then Err(ProofStateEvidenceMissing)
          else if evidence.MeltUnpaidAfterExpiry? && LatestReleaseEvidence(t, row, evidenceAt, proofStateAt).Some? then
            Err(LatestReleaseEvidence(t, row, evidenceAt, proofStateAt).value)
          else PersistTransition(t, p, ReleaseDraft(input))
  }

  // --------------------------------------------------------------- all calls

  datatype Call =
    | CallCreateInvoice(id: string, row: InvoiceRow)
    | CallReserve(p: string, reservation: Reservation, keysetsObserved: bool)
    | CallStoreCustody(p: string, createdAt: nat, proofCount: nat)
    | CallBeginQuote(p: string, attempt: Attempt)
    | CallRecordAmbiguous(p: string, attemptId: string, reason: string, recordedAt: nat)
    | CallRecordQuote(p: string, attemptId: string, quote: Quote)
    | CallObserveQuote(p: string, attemptId: string, quote: Quote)
    | CallObserveProofs(p: string, report: ProofReport)
    | CallStartEffect(p: string, eventId: string, effect: Effect)
    | CallRecordPending(p: string, effectId: string, eventId: string, evidenceAt: nat, recordedAt: nat)
    | CallRequireAttention(p: string, effectId: string, eventId: string, why: AttentionReason, evidenceAt: nat, recordedAt: nat)
    | CallAccept(p: string, acceptInput: AcceptInput)
    | CallRelease(p: string, releaseInput: ReleaseInput)

  ghost function Apply(t: Tables, c: Call): Outcome {
    match c
    case CallCreateInvoice(id, row) => CreateInvoice(t, id, row)
    case CallReserve(p, r, k) => Reserve(t, p, r, k)
    case CallStoreCustody(p, at, n) => StoreCustody(t, p, at, n)
    case CallBeginQuote(p, a) => BeginQuote(t, p, a)
    case CallRecordAmbiguous(p, id, reason, at) => RecordAmbiguous(t, p, id, reason, at)
    case CallRecordQuote(p, id, q) => RecordQuote(t, p, id, q)
    case CallObserveQuote(p, id, q) => ObserveQuote(t, p, id, q)
    case CallObserveProofs(p, r) => ObserveProofs(t, p, r)
    case CallStartEffect(p, id, e) => StartEffect(t, p, id, e)
    case CallRecordPending(p, e, id, evidenceAt, at) => RecordEvent(t, p, PendingDraft(e, id, evidenceAt, at))
    case CallRequireAttention(p, e, id, reason, evidenceAt, at) => RecordEvent(t, p, AttentionDraft(e, id, reason, evidenceAt, at))
    case CallAccept(p, input) => Accept(t, p, input)
    case CallRelease(p, input) => Release(t, p, input)
  }

  /** A failed call is rolled back. */
  ghost function After(t: Tables, c: Call): Tables {
    match Apply(t, c)
    case Ok(done) => done.tables
    case Err(_) => t
  }

  ghost predicate IsRun(trace: seq<Tables>, calls: seq<Call>) {
    && |trace| == |calls| + 1
    && trace[0] == NoTables
    && forall i :: 0 <= i < |calls| ==> trace[i + 1] == After(trace[i], calls[i])
  }
}
