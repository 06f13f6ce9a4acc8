/**
 * The lifecycle repository in its own imperative form
 * (postgres-cashu-proof-reservation-lifecycle-repository.ts): each method
 * reads and writes the tables step by step and is proved to carry out the
 * transaction that MeltStore specifies.
 */
module LifecycleRepositories {
  import opened Outcomes
  import opened MeltRecords
  import opened MeltStore
  import opened AcquirerDatabase
  import opened MeltInvariants
  import opened MeltAcceptance
  import ProofHistory
  import Ledger

  datatype Lifecycle = Lifecycle(effect: Option<Effect>, events: seq<Event>, state: State)

  /** The history loop of mapCashuStellarMeltQuotedEvidenceRecord. */
  method MapQuotedEvidence(startedAt: nat, expiry: nat, recordedAt: nat, observations: seq<Sighting>) returns (ok: bool)
    ensures ok <==> SightingsReadable(startedAt, expiry, recordedAt, observations)
  {
    if observations == [] || observations[0].observedAt != recordedAt || !observations[0].state.Unpaid?
       || recordedAt < startedAt || expiry <= observations[0].observedAt || expiry - startedAt > MAX_QUOTE_TTL {
      return false;
    }
    var position := 1;
    while position < |observations|
      invariant 1 <= position <= |observations|
      invariant forall k :: 0 < k < position ==>
                  && observations[k - 1].observedAt < observations[k].observedAt
                  && (observations[k - 1].state.Paid? ==> observations[k].state.Paid?)
    {
      var previous, current := observations[position - 1], observations[position];
      if current.observedAt <= previous.observedAt || (previous.state.Paid? && !current.state.Paid?) {
        return false;
      }
      position := position + 1;
    }
    return true;
  }

  method LoadMeltQuotedEvidence(row: PaymentRow) returns (found: bool)
    ensures found <==> HasQuotedEvidence(row)
  {
    if row.attempt.None? || row.outcome.None? || row.outcome.value.Ambiguous? {
      return false;
    }
    var outcome := row.outcome.value;
    found := MapQuotedEvidence(row.attempt.value.startedAt, outcome.terms.expiry, outcome.recordedAt, row.sightings);
  }

  /** The last observation not after `at`. */
  method DispatchQuote(observations: seq<Sighting>, at: nat) returns (latest: Option<Sighting>)
    ensures latest == LastAtOrBefore(observations, at)
  {
    latest := None;
    for i := 0 to |observations|
      invariant latest == LastAtOrBefore(observations[..i], at)
    {
      assert observations[..i + 1][..i] == observations[..i];
      if observations[i].observedAt <= at {
        latest := Some(observations[i]);
      }
    }
    assert observations[..|observations|] == observations;
  }

  /** assertMeltPaidEvidence: the first observation at `evidenceAt` must be there and be PAID. */
  method AssertMeltPaidEvidence(row: PaymentRow, evidenceAt: nat) returns (refused: Option<StoreError>)
    requires HasQuotedEvidence(row)
    ensures refused == if !SightedAt(row.sightings, evidenceAt) then Some(QuoteEvidenceMissing)
                       else if Sighting(evidenceAt, Paid) !in row.sightings then Some(QuoteEvidenceMismatch)
                       else None
  {
    var observations := row.sightings;
    for i := 0 to |observations|
      invariant forall k :: 0 <= k < i ==> observations[k].observedAt != evidenceAt
    {
      if observations[i].observedAt == evidenceAt {
        OnlyAt(row, i);
        return if observations[i].state.Paid? then None else Some(QuoteEvidenceMismatch);
      }
    }
    return Some(QuoteEvidenceMissing);
  }

  /** Observation times are distinct, so the first match is the only one. */
  lemma OnlyAt(row: PaymentRow, i: nat)
    requires HasQuotedEvidence(row) && i < |row.sightings|
    ensures forall k :: 0 <= k < |row.sightings| && row.sightings[k].observedAt == row.sightings[i].observedAt ==> k == i
  {
    var startedAt, terms, recordedAt := row.attempt.value.startedAt, row.outcome.value.terms, row.outcome.value.recordedAt;
    forall k | 0 <= k < |row.sightings| && row.sightings[k].observedAt == row.sightings[i].observedAt ensures k == i {
      if k < i { SightingsIncrease(startedAt, terms.expiry, recordedAt, row.sightings, k, i); }
      if i < k { SightingsIncrease(startedAt, terms.expiry, recordedAt, row.sightings, i, k); }
    }
  }

  /** validateProofStateEvidenceByFingerprint: every reserved proof is in the required state. */
  method ResolveProofStateEvidence(row: PaymentRow, at: nat, required: ProofHistory.ProofState) returns (ok: bool)
    ensures ok <==> SnapshotSupports(row, at, required)
  {
    if at !in row.snapshots || |row.snapshots[at]| == 0 || |row.snapshots[at]| != |row.reservation.proofs|
       || at < row.reservation.reservedAt {
      return false;
    }
    var entries := row.snapshots[at];
    for position := 0 to |entries|
      invariant forall i :: 0 <= i < position ==> entries[i] == required
    {
      if entries[position] != required {
        return false;
      }
    }
    return true;
  }

  method MapEvent(row: PaymentRow, event: Event) returns (ok: bool)
    ensures ok <==> EventReadable(row, event)
  {
    if event.effectId != (if row.effect.Some? then Some(row.effect.value.effectId) else None) {
      return false;
    }
    if event.snapshotAt.Some? {
      var supported := ResolveProofStateEvidence(
        row, event.snapshotAt.value, if event.state.Consumed? then ProofHistory.Spent else ProofHistory.Unspent);
      if !supported {
        return false;
      }
    }
    hide SnapshotSupports;
    return PublicShape(event)
        && row.reservation.reservedAt <= event.recordedAt
        && (event.evidenceAt.Some? ==> event.evidenceAt.value <= event.recordedAt)
        && EventMatchesEffect(event, row.effect);
  }

  /** The event loop of loadLifecycle. */
  method LoadEvents(row: PaymentRow) returns (state: State, ok: bool)
    ensures ok <==> EventsReadable(row)
    ensures ok ==> state == Current(row)
  {
    hide EventReadable;
    state := Reserved;
    var others := false;
    for sequence := 0 to |row.events|
      invariant state == StateAfter(row.events[..sequence])
      invariant forall k :: 0 <= k < sequence ==> StepReadable(row, k)
      invariant others <==> exists k :: 0 <= k < sequence && !row.events[k].state.Released?
    {
      var event := row.events[sequence];
      var mapped := MapEvent(row, event);
      if !mapped || !TransitionAllowed(state, event.state)
         || (sequence > 0 && event.recordedAt < row.events[sequence - 1].recordedAt) {
        assert !StepReadable(row, sequence);
        return state, false;
      }
      assert StepReadable(row, sequence);
      state := event.state;
      others := others || !event.state.Released?;
    }
    assert row.events[..|row.events|] == row.events;
    if row.effect.None? && others {
      return state, false;
    }
    if row.effect.Some? && (row.events == [] || !row.events[0].state.DispatchStarted?) {
      return state, false;
    }
    return state, true;
  }

  class LifecycleRepository {
    const db: Database

    constructor (database: Database)
      ensures db == database
    {
      db := database;
    }

    /** assertProjection: counts of reserved proofs and active claims. */
    method AssertProjection(p: string, state: State, hasEffect: bool) returns (ok: bool)
      requires p in db.payments && state == Current(db.payments[p]) && hasEffect == db.payments[p].effect.Some?
      ensures ok <==> ProjectionReadable(db.Contents(), p)
    {
      var reservedProofs := |db.payments[p].reservation.proofs|;
      var activeProofClaims := |ProofClaimsOf(db.Contents(), p)|;
      var activeInvoiceClaims := |InvoiceClaimsOf(db.Contents(), p)|;
      ok := !(reservedProofs == 0
              || (state.Released? && (activeProofClaims != 0 || activeInvoiceClaims != 0))
              || (!state.Released? && activeProofClaims != reservedProofs)
              || (!state.Released? && activeInvoiceClaims != (if hasEffect then 1 else 0)));
    }

    /** assertMeltQuoteEvidence in "stored" mode. */
    method AssertStoredQuoteEvidence(p: string) returns (ok: bool)
      requires p in db.payments && HasInvoice(db.Contents(), db.payments[p])
      requires db.payments[p].effect.Some? && db.payments[p].effect.value.kind.Melt?
      ensures ok <==> QuoteTermsReadable(db.Contents(), p) && DispatchQuoteReadable(db.payments[p])
    {
      hide SightingsReadable, LastAtOrBefore, ProofClaimsOf, InvoiceClaimsOf;
      var row := db.payments[p];
      var effect := row.effect.value;
      var found := LoadMeltQuotedEvidence(row);
      if !found {
        return false;
      }
      var dispatchQuote := DispatchQuote(row.sightings, effect.startedAt);
      var route := RouteOf(db.Contents(), row);
      if route.None? || dispatchQuote.None? {
        return false;
      }
      return TermsMatchEffect(row, InvoiceOf(db.Contents(), row), route.value, effect) && dispatchQuote.value.state.Unpaid?;
    }

    /** loadReservation followed by loadLifecycle. */
    method LoadLifecycle(p: string) returns (r: Result<Lifecycle, StoreError>)
      requires p in db.payments
      ensures var row := db.payments[p];
              r == if Readable(db.Contents(), p) then Ok(Lifecycle(row.effect, row.events, Current(row))) else Err(InvalidRecord)
    {
      hide EventsReadable, ProjectionReadable, QuoteTermsReadable, DispatchQuoteReadable;
      var row := db.payments[p];
      if row.reservation.invoiceId !in db.invoices || !InvoiceReadable(InvoiceOf(db.Contents(), row)) {
        return Err(InvalidRecord);
      }
      if !EffectReadable(row, InvoiceOf(db.Contents(), row)) {
        return Err(InvalidRecord);
      }
      if row.effect.Some? && row.effect.value.kind.Melt? {
        var quoteMatches := AssertStoredQuoteEvidence(p);
        if !quoteMatches {
          return Err(InvalidRecord);
        }
      } else {
        NoQuoteToRead(db.Contents(), p);
      }
      var currentState, mapped := LoadEvents(row);
      if !mapped {
        return Err(InvalidRecord);
      }
      var projected := AssertProjection(p, currentState, row.effect.Some?);
      if !projected {
        return Err(InvalidRecord);
      }
      return Ok(Lifecycle(row.effect, row.events, currentState));
    }

    static lemma NoQuoteToRead(t: Tables, p: string)
      requires p in t.payments && (t.payments[p].effect.None? || t.payments[p].effect.value.kind.Swap?)
      ensures QuoteTermsReadable(t, p) && DispatchQuoteReadable(t.payments[p])
    {
    }

    /** The load that ends every write. */
    method ReadBack(p: string) returns (r: Result<bool, StoreError>)
      requires p in db.payments
      ensures Performs(CheckedLoad(db.Contents(), p), db.Contents(), r)
    {
      hide Readable;
      var loaded := LoadLifecycle(p);
      r := match loaded case Ok(_) => Ok(false) case Err(e) => Err(e);
    }

    /** replayEvent. */
    method ReplayEvent(p: string, draft: Event, expectedEffect: Option<Effect>)
      returns (replay: Option<Result<bool, StoreError>>)
      requires p in db.payments
      ensures match Replay(db.Contents(), p, draft, expectedEffect)
              case None => replay.None?
              case Some(spec) => replay.Some? && Performs(spec, db.Contents(), replay.value)
    {
      hide Readable, FindEvent;
      var key := EventKey(draft.eventId);
      if key !in db.keys {
        return None;
      }
      if db.keys[key] != p {
        return Some(Err(EventConflict));
      }
      var loaded := LoadLifecycle(p);
      if loaded.Err? {
        return Some(Err(loaded.error));
      }
      if FindEvent(loaded.value.events, draft.eventId) != Some(draft) {
        return Some(Err(EventConflict));
      }
      if expectedEffect.Some? && loaded.value.effect != expectedEffect {
        return Some(Err(EffectConflict));
      }
      return Some(Ok(true));
    }

    /** insertEvent; a terminal event also destroys custody. */
    method InsertEvent(p: string, draft: Event)
      requires p in db.payments
      modifies db
      ensures db.Contents() == WithEvent(old(db.Contents()), p, draft)
    {
      var row := db.payments[p];
      db.payments := db.payments[p := row.(events := row.events + [draft])];
      db.keys := db.keys[EventKey(draft.eventId) := p];
      if draft.state.Consumed? || draft.state.Released? {
        row := db.payments[p];
        db.payments := db.payments[p := row.(custodyAt := None)];
      }
      ghost var custody := if draft.state.Consumed? || draft.state.Released? then None else row.custodyAt;
      assert db.payments == old(db.payments)[p := old(db.payments)[p].(events := old(db.payments)[p].events + [draft], custodyAt := custody)];
    }

    /** releaseActiveClaims. */
    method ReleaseActiveClaims(p: string)
      modifies db
      ensures db.Contents() == WithoutClaims(old(db.Contents()), p)
    {
      db.proofClaims := db.proofClaims - ProofClaimsOf(db.Contents(), p);
      db.invoiceClaims := db.invoiceClaims - InvoiceClaimsOf(db.Contents(), p);
      assert InvoiceClaimsOf(old(db.Contents()), p) == (set i | i in old(db.invoiceClaims) && old(db.invoiceClaims)[i] == p);
    }

    /** The insert of the effect row, with its unique keys and its claim on the invoice. */
    method InsertEffect(p: string, effect: Effect) returns (refused: Option<StoreError>)
      requires p in db.payments
      modifies db
      ensures var t := old(db.Contents());
              var row := t.payments[p];
              && refused == (if row.effect.Some? || !(EffectKeys(row.reservation.mintUrl, effect) !! t.keys.Keys) then Some(EffectConflict)
                             else if row.reservation.invoiceId in t.invoiceClaims then Some(InvoiceClaimed)
                             else None)
              && (refused.None? ==> db.Contents() == WithEffect(t, p, effect))
    {
      var row := db.payments[p];
      var unique := EffectKeys(row.reservation.mintUrl, effect);
      if row.effect.Some? || unique * db.keys.Keys != {} {
        return Some(EffectConflict);
      }
      db.payments := db.payments[p := row.(effect := Some(effect))];
      db.keys := db.keys + (map k | k in unique :: p);
      if row.reservation.invoiceId in db.invoiceClaims {
        return Some(InvoiceClaimed);
      }
      db.invoiceClaims := db.invoiceClaims[row.reservation.invoiceId := p];
      return None;
    }

    /** assertMeltQuoteEvidence in "dispatch" mode. */
    method AssertDispatchEvidence(p: string, effect: Effect) returns (refused: Option<StoreError>)
      requires p in db.payments && HasInvoice(db.Contents(), db.payments[p])
      ensures refused == DispatchEvidence(db.Contents(), db.payments[p], effect)
    {
      hide LastAtOrBefore;
      var row := db.payments[p];
      if row.attempt.None? || row.outcome.None? {
        return Some(QuoteEvidenceMissing);
      }
      var found := LoadMeltQuotedEvidence(row);
      if !found || RouteOf(db.Contents(), row).None? {
        return Some(InvalidRecord);
      }
      var dispatchQuote := DispatchQuote(row.sightings, effect.startedAt);
      var latestQuote := Last(row.sightings);
      var route := RouteOf(db.Contents(), row).value;
      if !TermsMatchEffect(row, InvoiceOf(db.Contents(), row), route, effect)
         || dispatchQuote.None? || !dispatchQuote.value.state.Unpaid?
         || !latestQuote.state.Unpaid? || effect.startedAt < latestQuote.observedAt {
        return Some(QuoteEvidenceMismatch);
      }
      return None;
    }

    method StartInTransaction(p: string, eventId: string, effect: Effect) returns (r: Result<bool, StoreError>)
      modifies db
      ensures Performs(MeltStore.StartEffect(old(db.Contents()), p, eventId, effect), db.Contents(), r)
    {
      hide Readable, FindEvent, DispatchEvidence, EffectKeys, Replay;
      if effect.kind.Melt? && effect.kind.referenceExpiresAt <= effect.startedAt {
        return Err(InvalidInput);
      }
      if p !in db.payments {
        return Err(ReservationNotFound);
      }
      var draft := StartDraft(eventId, effect);
      var replay := ReplayEvent(p, draft, Some(effect));
      if replay.Some? {
        return replay.value;
      }
      var loaded := LoadLifecycle(p);
      if loaded.Err? {
        return Err(loaded.error);
      }
      ReadableHasInvoice(db.Contents(), p);
      if !loaded.value.state.Reserved? {
        return Err(InvalidTransition);
      }
      var row := db.payments[p];
      var invoice := InvoiceOf(db.Contents(), row);
      if invoice.paidAt.Some? || effect.startedAt < invoice.createdAt || invoice.expiresAt <= effect.startedAt
         || effect.startedAt < row.reservation.reservedAt {
        return Err(InvalidTransition);
      }
      if effect.kind.Melt? {
        var evidence := AssertDispatchEvidence(p, effect);
        if evidence.Some? {
          return Err(evidence.value);
        }
      }
      var refused := InsertEffect(p, effect);
      if refused.Some? {
        return Err(refused.value);
      }
      InsertEvent(p, draft);
      r := ReadBack(p);
    }

    static lemma ReadableHasInvoice(t: Tables, p: string)
      requires p in t.payments && Readable(t, p)
      ensures HasInvoice(t, t.payments[p])
    {
    }

    /** startEffect. */
    method StartEffect(p: string, eventId: string, effect: Effect) returns (r: Result<bool, StoreError>)
      modifies db
      ensures Commits(old(db.Contents()), MeltStore.StartEffect(old(db.Contents()), p, eventId, effect), db.Contents(), r)
    {
      hide MeltStore.StartEffect;
      var begun := db.Contents();
      r := StartInTransaction(p, eventId, effect);
      if r.Err? {
        db.Restore(begun);
      }
    }

    /** persistTransitionInTransaction. */
    method PersistTransition(p: string, draft: Event) returns (r: Result<bool, StoreError>)
      requires p in db.payments
      modifies db
      ensures Performs(MeltStore.PersistTransition(old(db.Contents()), p, draft), db.Contents(), r)
    {
      hide Readable, FindEvent, Replay, WithEvent, WithoutClaims;
      var replay := ReplayEvent(p, draft, None);
      if replay.Some? {
        return replay.value;
      }
      var loaded := LoadLifecycle(p);
      if loaded.Err? {
        return Err(loaded.error);
      }
      var current := loaded.value;
      var row := db.payments[p];
      if draft.state.Released? && draft.evidence == Some(PreDispatch) {
        if !current.state.Reserved? || current.effect.Some? || draft.recordedAt < row.reservation.reservedAt {
          return Err(InvalidTransition);
        }
        InsertEvent(p, draft);
        ReleaseActiveClaims(p);
        EventKeepsPayments(old(db.Contents()), p, draft);
        r := ReadBack(p);
        return;
      }
      if current.effect.None? || draft.effectId != Some(current.effect.value.effectId)
         || !(current.state.DispatchStarted? || current.state.PendingOutcome? || current.state.NeedsAttention?)
         || current.events == [] || draft.recordedAt < Last(current.events).recordedAt
         || draft.evidenceAt.None?
         || draft.evidenceAt.value < current.effect.value.startedAt || draft.recordedAt < draft.evidenceAt.value
         || !EvidenceMatchesEffect(draft.evidence, current.effect.value.kind)
         || !EvidenceTimeMatches(draft.evidence, draft.evidenceAt.value, current.effect.value.kind) {
        return Err(InvalidTransition);
      }
      if draft.snapshotAt.Some? {
        var observedAt := draft.snapshotAt.value;
        if observedAt !in row.snapshots || observedAt < draft.evidenceAt.value || draft.recordedAt < observedAt {
          return Err(InvalidTransition);
        }
      }
      if |current.events| >= MAX_EVENTS {
        return Err(StorageConflict);
      }
      InsertEvent(p, draft);
      if draft.state.Released? {
        ReleaseActiveClaims(p);
      }
      EventKeepsPayments(old(db.Contents()), p, draft);
      r := ReadBack(p);
    }

    static lemma EventKeepsPayments(t: Tables, p: string, draft: Event)
      requires p in t.payments
      ensures p in WithEvent(t, p, draft).payments && p in WithoutClaims(WithEvent(t, p, draft), p).payments
    {
    }

    method PersistDraft(p: string, draft: Event) returns (r: Result<bool, StoreError>)
      modifies db
      ensures Commits(old(db.Contents()), RecordEvent(old(db.Contents()), p, draft), db.Contents(), r)
    {
      hide MeltStore.PersistTransition;
      if p !in db.payments {
        return Err(ReservationNotFound);
      }
      var begun := db.Contents();
      r := PersistTransition(p, draft);
      if r.Err? {
        db.Restore(begun);
      }
    }

    /** recordPending. */
    method RecordPending(p: string, effectId: string, eventId: string, evidenceAt: nat, recordedAt: nat)
      returns (r: Result<bool, StoreError>)
      modifies db
      ensures Commits(old(db.Contents()), Apply(old(db.Contents()), CallRecordPending(p, effectId, eventId, evidenceAt, recordedAt)),
                      db.Contents(), r)
    {
      hide RecordEvent;
      r := PersistDraft(p, PendingDraft(effectId, eventId, evidenceAt, recordedAt));
    }

    /** requireAttention. */
    method RequireAttention(p: string, effectId: string, eventId: string, reason: AttentionReason, evidenceAt: nat, recordedAt: nat)
      returns (r: Result<bool, StoreError>)
      modifies db
      ensures Commits(old(db.Contents()),
                      Apply(old(db.Contents()), CallRequireAttention(p, effectId, eventId, reason, evidenceAt, recordedAt)),
                      db.Contents(), r)
    {
      hide RecordEvent;
      r := PersistDraft(p, AttentionDraft(effectId, eventId, reason, evidenceAt, recordedAt));
    }

    /** assertEffectEvidence, with assertMeltPaidEvidence for melt_paid. */
    method AssertEffectEvidence(p: string, effectId: string, evidence: Evidence, evidenceAt: nat, recordedAt: nat)
      returns (refused: Option<StoreError>)
      requires p in db.payments
      ensures refused == EffectEvidence(db.Contents(), p, effectId, evidence, evidenceAt, recordedAt)
    {
      hide Readable;
      var loaded := LoadLifecycle(p);
      if loaded.Err? {
        return Some(loaded.error);
      }
      var effect := loaded.value.effect;
      if effect.None? || effect.value.effectId != effectId
         || !EvidenceMatchesEffect(Some(evidence), effect.value.kind)
         || !EvidenceTimeMatches(Some(evidence), evidenceAt, effect.value.kind)
         || evidenceAt < effect.value.startedAt || recordedAt < evidenceAt {
        return Some(InvalidTransition);
      }
      if evidence.MeltPaid? {
        ReadableMeltIsQuoted(db.Contents(), p);
        refused := AssertMeltPaidEvidence(db.payments[p], evidenceAt);
      } else {
        refused := None;
      }
    }

    static lemma ReadableMeltIsQuoted(t: Tables, p: string)
      requires p in t.payments && Readable(t, p) && t.payments[p].effect.Some? && t.payments[p].effect.value.kind.Melt?
      ensures HasQuotedEvidence(t.payments[p])
    {
    }

    /** persistAcceptedPayment: the invoice is paid and its journal written. */
    method PersistAcceptedPayment(p: string, input: AcceptInput) returns (refused: Option<StoreError>)
      requires p in db.payments && HasInvoice(db.Contents(), db.payments[p])
      modifies db
      ensures match PersistAccepted(old(db.Contents()), p, input)
              case Ok(done) => refused.None? && db.Contents() == done.tables
              case Err(e) => refused == Some(e)
      ensures refused.None? <==> PaymentOpen(old(db.Contents()), p, input)
    {
      hide Ledger.AcceptInvoicePayment;
      PersistsExactlyWhenOpen(db.Contents(), p, input);
      var row := db.payments[p];
      var invoiceId := row.reservation.invoiceId;
      var invoice := db.invoices[invoiceId].invoice;
      if invoice.paidAt.Some? {
        return Some(InvalidTransition);
      }
      var route := RouteOf(db.Contents(), row);
      if route.None? {
        return Some(InvalidRecord);
      }
      if !route.value.mode.ImmediateConversion? {
        return Some(InvalidTransition);
      }
      var accepted := Ledger.AcceptInvoicePayment(invoice, PaymentInputOf(row, p, input));
      if accepted.Err? {
        return Some(InvalidTransition);
      }
      if JournalKey(input.journalId) in db.keys || p in db.journals {
        return Some(StorageConflict);
      }
      db.journals := db.journals[p := accepted.value];
      db.keys := db.keys[JournalKey(input.journalId) := p];
      db.invoices := db.invoices[invoiceId := db.invoices[invoiceId].(invoice := accepted.value.invoice)];
      return None;
    }

    method AcceptInTransaction(p: string, input: AcceptInput) returns (r: Result<bool, StoreError>)
      modifies db
      ensures Performs(Accept(old(db.Contents()), p, input), db.Contents(), r)
    {
      hide Readable, Replay, PersistAccepted, MeltStore.PersistTransition, EffectEvidence, SnapshotSupports, AccountingMatches;
      if p !in db.payments {
        return Err(ReservationNotFound);
      }
      var refused := AssertEffectEvidence(p, input.effectId, MeltPaid, input.evidenceAt, input.recordedAt);
      if refused.Some? {
        return Err(refused.value);
      }
      EvidenceHasInvoice(db.Contents(), p, input);
      var row := db.payments[p];
      var supported := ResolveProofStateEvidence(row, input.proofStateAt, ProofHistory.Spent);
      if !supported {
        return Err(ProofStateEvidenceMissing);
      }
      var draft := AcceptDraft(input);
      var replay := ReplayEvent(p, draft, None);
      if replay.Some? {
        if replay.value.Err? {
          return replay.value;
        }
        if p !in db.journals {
          return Err(InvalidRecord);
        }
        if !AccountingMatches(db.journals[p], row, p, input) {
          return Err(AccountingConflict);
        }
        ReplayIsReplayed(db.Contents(), p, draft);
        return Ok(true);
      }
      var unpaid := PersistAcceptedPayment(p, input);
      if unpaid.Some? {
        return Err(unpaid.value);
      }
      AcceptedKeepsPayments(old(db.Contents()), p, input);
      r := PersistTransition(p, draft);
    }

    /** acceptPayment. */
    method AcceptPayment(p: string, input: AcceptInput) returns (r: Result<bool, StoreError>)
      modifies db
      ensures Commits(old(db.Contents()), Accept(old(db.Contents()), p, input), db.Contents(), r)
      ensures var t := old(db.Contents());
              Sound(t) && p in t.payments && EventKey(input.eventId) !in t.keys ==>
                && (r.Ok? <==> AcceptAllowed(t, p, input))
                && (r.Ok? ==> !r.value && HasInvoice(t, t.payments[p]) && AcceptanceWritten(t, p, input, db.Contents()))
    {
      hide Accept, Sound, AcceptAllowed, AcceptanceWritten;
      var begun := db.Contents();
      if Sound(begun) && p in begun.payments && EventKey(input.eventId) !in begun.keys {
        AcceptsExactlyWhenAllowed(begun, p, input);
      }
      r := AcceptInTransaction(p, input);
      if r.Err? {
        db.Restore(begun);
      }
    }

    static lemma EvidenceHasInvoice(t: Tables, p: string, input: AcceptInput)
      requires p in t.payments
      requires EffectEvidence(t, p, input.effectId, MeltPaid, input.evidenceAt, input.recordedAt).None?
      ensures HasInvoice(t, t.payments[p])
    {
    }

    static lemma ReplayIsReplayed(t: Tables, p: string, draft: Event)
      requires p in t.payments && Replay(t, p, draft, None).Some? && Replay(t, p, draft, None).value.Ok?
      ensures Replay(t, p, draft, None).value == Replayed(t)
    {
    }

    static lemma AcceptedKeepsPayments(t: Tables, p: string, input: AcceptInput)
      requires p in t.payments && HasInvoice(t, t.payments[p]) && PersistAccepted(t, p, input).Ok?
      ensures PersistAccepted(t, p, input).value.tables.payments == t.payments
    {
    }

    /** assertLatestMeltReleaseEvidence. */
    method AssertLatestMeltReleaseEvidence(p: string, evidenceAt: nat, proofStateAt: nat) returns (refused: Option<StoreError>)
      requires p in db.payments && HasInvoice(db.Contents(), db.payments[p]) && db.payments[p].effect.Some?
      ensures refused == LatestReleaseEvidence(db.Contents(), db.payments[p], evidenceAt, proofStateAt)
    {
      var row := db.payments[p];
      var effect := row.effect.value;
      var found := LoadMeltQuotedEvidence(row);
      var route := RouteOf(db.Contents(), row);
      if !found || route.None? || effect.kind.Swap? {
        return Some(InvalidTransition);
      }
      var latestQuote := Last(row.sightings);
      var terms := row.outcome.value.terms;
      if !AttemptMatches(row, InvoiceOf(db.Contents(), row))
         || row.attempt.value.request.destination != route.value.destination
         || terms.quoteId != effect.kind.reference || terms.expiry != effect.kind.referenceExpiresAt
         || latestQuote.observedAt != evidenceAt || !latestQuote.state.Unpaid? {
        return Some(InvalidTransition);
      }
      if proofStateAt !in row.snapshots || exists at :: at in row.snapshots && proofStateAt < at {
        return Some(ProofStateEvidenceMissing);
      }
      return None;
    }

    method ReleaseInTransaction(p: string, input: ReleaseInput) returns (r: Result<bool, StoreError>)
      modifies db
      ensures Performs(MeltStore.Release(old(db.Contents()), p, input), db.Contents(), r)
    {
      hide Readable, MeltStore.PersistTransition, SnapshotSupports, LatestReleaseEvidence;
      if input.ReleaseAfterFailure? && !(input.evidence.SwapRejected? || input.evidence.MeltUnpaidAfterExpiry?) {
        return Err(InvalidInput);
      }
      if p !in db.payments {
        return Err(ReservationNotFound);
      }
      if input.ReleaseAfterFailure? {
        var refused := AssertEffectEvidence(p, input.effectId, input.evidence, input.evidenceAt, input.recordedAt);
        if refused.Some? {
          return Err(refused.value);
        }
        var supported := ResolveProofStateEvidence(db.payments[p], input.proofStateAt, ProofHistory.Unspent);
        if !supported {
          return Err(ProofStateEvidenceMissing);
        }
        if input.evidence.MeltUnpaidAfterExpiry? {
          ReadableHasInvoice(db.Contents(), p);
          var stale := AssertLatestMeltReleaseEvidence(p, input.evidenceAt, input.proofStateAt);
          if stale.Some? {
            return Err(stale.value);
          }
        }
      }
      r := PersistTransition(p, ReleaseDraft(input));
    }

    /** release. */
    method Release(p: string, input: ReleaseInput) returns (r: Result<bool, StoreError>)
      modifies db
      ensures Commits(old(db.Contents()), MeltStore.Release(old(db.Contents()), p, input), db.Contents(), r)
    {
      hide MeltStore.Release;
      var begun := db.Contents();
      r := ReleaseInTransaction(p, input);
      if r.Err? {
        db.Restore(begun);
      }
    }
  }
}
