/**
 * When the lifecycle writes of a melt commit: acceptance, pending and attention
 * events, and the release before dispatch. Each commits exactly when its guards
 * hold, and then writes exactly the named rows.
 */
module MeltAcceptance {
  import opened Outcomes
  import opened MeltRecords
  import opened MeltStore
  import opened MeltRows
  import opened MeltInvariants
  import opened MeltCalls
  import opened MeltTheorems
  import ProofHistory
  import Ledger

  // ------------------------------------------------------------- acceptance

  /** What an acceptance needs of the tables, without the loads that begin and end its transaction. */
  predicate AcceptAllowed(t: Tables, p: string, input: AcceptInput)
    requires p in t.payments
  {
    var row := t.payments[p];
    && Readable(t, p) && Active(row) && |row.events| < MAX_EVENTS
    && row.effect.Some? && row.effect.value.kind.Melt? && row.effect.value.effectId == input.effectId
    && row.effect.value.startedAt <= input.evidenceAt <= input.proofStateAt <= input.recordedAt
    && Last(row.events).recordedAt <= input.recordedAt
    && Sighting(input.evidenceAt, Paid) in row.sightings
    && SnapshotSupports(row, input.proofStateAt, ProofHistory.Spent)
    && HasInvoice(t, row) && RouteOf(t, row).Some? && RouteOf(t, row).value.mode.ImmediateConversion?
    && InvoiceOf(t, row).paidAt.None? && input.fee < InvoiceOf(t, row).amount
    && InvoiceOf(t, row).createdAt <= input.proofStateAt < InvoiceOf(t, row).expiresAt
    && JournalKey(input.journalId) !in t.keys
  }

  /** The accounting half: an unpaid invoice in its window on an immediate route, a smaller fee, and free journal ids. */
  predicate PaymentOpen(t: Tables, p: string, input: AcceptInput)
    requires p in t.payments && HasInvoice(t, t.payments[p])
  {
    var row, invoice := t.payments[p], InvoiceOf(t, t.payments[p]);
    && invoice.paidAt.None? && Ledger.ValidInvoice(invoice) && input.fee < invoice.amount
    && RouteOf(t, row).Some? && RouteOf(t, row).value.mode.ImmediateConversion?
    && invoice.createdAt <= input.proofStateAt < invoice.expiresAt && input.proofStateAt <= input.recordedAt
    && JournalKey(input.journalId) !in t.keys && p !in t.journals
  }

  lemma PersistsExactlyWhenOpen(t: Tables, p: string, input: AcceptInput)
    requires p in t.payments && HasInvoice(t, t.payments[p])
    ensures PersistAccepted(t, p, input).Ok? <==> PaymentOpen(t, p, input)
  {
    hide Ledger.AcceptInvoicePayment;
    Ledger.AcceptanceCondition(InvoiceOf(t, t.payments[p]), PaymentInputOf(t.payments[p], p, input));
  }

  /** The paid invoice and the journal, with the consumed event: nothing else changes. */
  ghost predicate AcceptanceWritten(t: Tables, p: string, input: AcceptInput, u: Tables)
    requires p in t.payments && HasInvoice(t, t.payments[p])
  {
    var row, id := t.payments[p], t.payments[p].reservation.invoiceId;
    var consumed := Event(input.eventId, Consumed, input.recordedAt, Some(input.effectId), Some(MeltPaid),
                          Some(input.evidenceAt), Some(input.journalId), Some(input.proofStateAt));
    && u.payments == t.payments[p := row.(events := row.events + [consumed], custodyAt := None)]
    && u.invoices == t.invoices[id := t.invoices[id].(invoice := InvoiceOf(t, row).(paidAt := Some(input.proofStateAt)))]
    && u.keys == t.keys[JournalKey(input.journalId) := p][EventKey(input.eventId) := p]
    && u.proofClaims == t.proofClaims && u.invoiceClaims == t.invoiceClaims
    && p in u.journals && u.journals == t.journals[p := u.journals[p]]
    && var a := u.journals[p];
       && a.invoice == u.invoices[id].invoice && a.gross == InvoiceOf(t, row).amount && a.fee == input.fee
       && a.gross == a.net + a.fee && a.entry.id == input.journalId && a.entry.effectiveAt == input.recordedAt
       && a.entry.reference.paymentId == p && a.entry.reference.operatorId == row.reservation.operatorId
       && a.entry.reference.mode == Ledger.ImmediateConversion
  }

  lemma AcceptedAccounting(t: Tables, p: string, input: AcceptInput)
    requires Sound(t) && p in t.payments && AcceptAllowed(t, p, input)
    ensures HasInvoice(t, t.payments[p]) && p !in t.journals
    ensures Ledger.AcceptInvoicePayment(InvoiceOf(t, t.payments[p]), PaymentInputOf(t.payments[p], p, input)).Ok?
  {
    hide Sound, Readable, SnapshotSupports, Ledger.AcceptInvoicePayment, AccountsSound;
    RowInvoiceIsValid(t, p);
    SoundParts(t);
    NotConsumedHasNoJournal(t, p);
    Ledger.AcceptanceCondition(InvoiceOf(t, t.payments[p]), PaymentInputOf(t.payments[p], p, input));
  }

  lemma AcceptanceFollows(t: Tables, p: string, input: AcceptInput)
    requires p in t.payments && AcceptAllowed(t, p, input)
    ensures FollowsEffect(t.payments[p], AcceptDraft(input)) && Readable(t, p)
  {
    hide Readable;
  }

  lemma RowInvoiceIsValid(t: Tables, p: string)
    requires Sound(t) && p in t.payments && HasInvoice(t, t.payments[p])
    ensures Ledger.ValidInvoice(InvoiceOf(t, t.payments[p]))
  {
    SoundParts(t);
    hide Sound;
  }

  /** The tables an allowed acceptance writes. */
  function AcceptedTables(t: Tables, p: string, input: AcceptInput): Tables
    requires p in t.payments && HasInvoice(t, t.payments[p])
    requires Ledger.AcceptInvoicePayment(InvoiceOf(t, t.payments[p]), PaymentInputOf(t.payments[p], p, input)).Ok?
  {
    WithEvent(PaidTables(t, p, input), p, AcceptDraft(input))
  }

  function PaidTables(t: Tables, p: string, input: AcceptInput): Tables
    requires p in t.payments && HasInvoice(t, t.payments[p])
    requires Ledger.AcceptInvoicePayment(InvoiceOf(t, t.payments[p]), PaymentInputOf(t.payments[p], p, input)).Ok?
  {
    var id := t.payments[p].reservation.invoiceId;
    var accepted := Ledger.AcceptInvoicePayment(InvoiceOf(t, t.payments[p]), PaymentInputOf(t.payments[p], p, input)).value;
    t.(invoices := t.invoices[id := t.invoices[id].(invoice := accepted.invoice)],
       journals := t.journals[p := accepted], keys := t.keys[JournalKey(input.journalId) := p])
  }

  lemma AllowedAcceptanceWrites(t: Tables, p: string, input: AcceptInput)
    requires Sound(t) && p in t.payments && AcceptAllowed(t, p, input) && EventKey(input.eventId) !in t.keys
    ensures HasInvoice(t, t.payments[p])
    ensures Ledger.AcceptInvoicePayment(InvoiceOf(t, t.payments[p]), PaymentInputOf(t.payments[p], p, input)).Ok?
    ensures AcceptWrites(t, p, input, AcceptedTables(t, p, input))
  {
    hide Sound, Readable, SnapshotSupports, Ledger.AcceptInvoicePayment, FollowsEffect, PaymentInputOf;
    AcceptedAccounting(t, p, input);
    AcceptanceFollows(t, p, input);
  }

  lemma AcceptedTablesAreSound(t: Tables, p: string, input: AcceptInput, u: Tables)
    requires Sound(t) && AcceptWrites(t, p, input, u)
    ensures Sound(u)
  {
    hide *;
    AcceptRows(t, p, input, u);
    AcceptClaims(t, p, input, u);
    AcceptAccounts(t, p, input, u);
    AcceptInvoices(t, p, input, u);
    AcceptKeys(t, p, input, u);
    SoundFromParts(u);
  }

  /** An allowed acceptance always reads back. */
  lemma AcceptanceReads(t: Tables, p: string, input: AcceptInput, u: Tables)
    requires Sound(t) && p in t.payments && Readable(t, p) && AcceptWrites(t, p, input, u)
    ensures p in u.payments && Readable(u, p)
  {
    hide *;
    AcceptedTablesAreSound(t, p, input, u);
    AcceptFacts(t, p, input, u);
    ReadableIffDispatchQuoteUnpaid(t, p);
    AppendKeepsDispatchQuote(t.payments[p], AcceptDraft(input));
    ReadableIffDispatchQuoteUnpaid(u, p);
  }

  /** Between its two writes the transaction still loads the payment. */
  lemma PaidTablesRead(t: Tables, p: string, input: AcceptInput)
    requires p in t.payments && AcceptAllowed(t, p, input)
    requires Ledger.AcceptInvoicePayment(InvoiceOf(t, t.payments[p]), PaymentInputOf(t.payments[p], p, input)).Ok?
    ensures Readable(PaidTables(t, p, input), p)
  {
    var u := PaidTables(t, p, input);
    AcceptedEchoesInput(InvoiceOf(t, t.payments[p]), PaymentInputOf(t.payments[p], p, input));
    hide Ledger.AcceptInvoicePayment, EventsReadable, DispatchQuoteReadable, SnapshotSupports, SightingsReadable;
    assert ProofClaimsOf(u, p) == ProofClaimsOf(t, p) && InvoiceClaimsOf(u, p) == InvoiceClaimsOf(t, p);
  }

  lemma AllowedAcceptanceCommits(t: Tables, p: string, input: AcceptInput)
    requires p in t.payments && AcceptAllowed(t, p, input) && EventKey(input.eventId) !in t.keys && p !in t.journals
    requires Ledger.AcceptInvoicePayment(InvoiceOf(t, t.payments[p]), PaymentInputOf(t.payments[p], p, input)).Ok?
    requires FollowsEffect(t.payments[p], AcceptDraft(input)) && Readable(PaidTables(t, p, input), p)
    requires p in AcceptedTables(t, p, input).payments && Readable(AcceptedTables(t, p, input), p)
    ensures Accept(t, p, input).Ok? && Accept(t, p, input) == Fresh(AcceptedTables(t, p, input))
  {
    AllowedPaymentPersists(t, p, input);
    AllowedPaidEvidence(t, p, input);
    hide Readable, SnapshotSupports, Ledger.AcceptInvoicePayment, FollowsEffect, PaymentInputOf, PersistAccepted, EffectEvidence;
  }

  lemma AllowedPaymentPersists(t: Tables, p: string, input: AcceptInput)
    requires p in t.payments && AcceptAllowed(t, p, input) && p !in t.journals
    requires Ledger.AcceptInvoicePayment(InvoiceOf(t, t.payments[p]), PaymentInputOf(t.payments[p], p, input)).Ok?
    ensures PersistAccepted(t, p, input) == Fresh(PaidTables(t, p, input))
  {
    hide Readable, SnapshotSupports, Ledger.AcceptInvoicePayment, PaymentInputOf;
  }

  lemma AllowedPaidEvidence(t: Tables, p: string, input: AcceptInput)
    requires p in t.payments && AcceptAllowed(t, p, input)
    ensures EffectEvidence(t, p, input.effectId, MeltPaid, input.evidenceAt, input.recordedAt).None?
  {
    var row := t.payments[p];
    var k :| 0 <= k < |row.sightings| && row.sightings[k] == Sighting(input.evidenceAt, Paid);
    assert row.sightings[k].observedAt == input.evidenceAt;
    hide Readable, SnapshotSupports, Ledger.AcceptInvoicePayment;
  }

  lemma CommittedAcceptanceWasAllowed(t: Tables, p: string, input: AcceptInput)
    requires Sound(t) && p in t.payments && EventKey(input.eventId) !in t.keys && Accept(t, p, input).Ok?
    ensures AcceptAllowed(t, p, input) && AcceptWrites(t, p, input, Accept(t, p, input).value.tables)
  {
    hide Sound, RowSound, Readable, SnapshotSupports, Ledger.AcceptInvoicePayment, Accept;
    AcceptShape(t, p, input);
    RowIsSound(t, p);
    AcceptedGuards(t, p, input);
    var row := t.payments[p];
    Ledger.AcceptanceCondition(InvoiceOf(t, row), PaymentInputOf(row, p, input));
  }

  lemma AcceptedGuards(t: Tables, p: string, input: AcceptInput)
    requires p in t.payments && HasInvoice(t, t.payments[p]) && EventKey(input.eventId) !in t.keys && Accept(t, p, input).Ok?
    ensures var row := t.payments[p];
            && Readable(t, p) && row.effect.Some? && row.effect.value.kind.Melt? && row.effect.value.effectId == input.effectId
            && RouteOf(t, row).Some? && RouteOf(t, row).value.mode.ImmediateConversion?
            && input.evidenceAt <= input.proofStateAt <= input.recordedAt
  {
    AcceptPays(t, p, input);
    hide Readable, SnapshotSupports, Ledger.AcceptInvoicePayment, PaymentInputOf;
  }

  lemma WrittenAcceptance(t: Tables, p: string, input: AcceptInput, u: Tables)
    requires p in t.payments && HasInvoice(t, t.payments[p]) && AcceptWrites(t, p, input, u)
    ensures AcceptanceWritten(t, p, input, u)
  {
    var row := t.payments[p];
    Ledger.AcceptanceCondition(InvoiceOf(t, row), PaymentInputOf(row, p, input));
    hide Ledger.AcceptInvoicePayment, SnapshotSupports, FollowsEffect;
  }

  /**
   * An acceptance commits exactly when its guards hold. It then marks the invoice paid, writes the journal of
   * the whole amount and appends the consumed event; the write always reads back.
   */
  lemma AcceptsExactlyWhenAllowed(t: Tables, p: string, input: AcceptInput)
    requires Sound(t) && p in t.payments && EventKey(input.eventId) !in t.keys
    ensures Accept(t, p, input).Ok? <==> AcceptAllowed(t, p, input)
    ensures Accept(t, p, input).Ok? ==>
              && HasInvoice(t, t.payments[p]) && !Accept(t, p, input).value.replayed
              && AcceptanceWritten(t, p, input, Accept(t, p, input).value.tables)
  {
    hide *;
    if AcceptAllowed(t, p, input) {
      AllowedAcceptanceWrites(t, p, input);
      AcceptedAccounting(t, p, input);
      AcceptanceFollows(t, p, input);
      AcceptanceReads(t, p, input, AcceptedTables(t, p, input));
      PaidTablesRead(t, p, input);
      AllowedAcceptanceCommits(t, p, input);
    }
    if Accept(t, p, input).Ok? {
      AcceptShape(t, p, input);
      CommittedAcceptanceWasAllowed(t, p, input);
      RowIsSound(t, p);
      WrittenAcceptance(t, p, input, Accept(t, p, input).value.tables);
    }
  }

  // ------------------------------------------------- events along the way

  /** What a pending or attention event needs of the tables. */
  predicate EventAllowed(t: Tables, p: string, effectId: string, evidenceAt: nat, recordedAt: nat)
    requires p in t.payments
  {
    var row := t.payments[p];
    && Readable(t, p) && Active(row) && |row.events| < MAX_EVENTS
    && row.effect.Some? && row.effect.value.effectId == effectId
    && row.effect.value.startedAt <= evidenceAt <= recordedAt && Last(row.events).recordedAt <= recordedAt
  }

  /** One event more, under its id; nothing else changes. */
  predicate EventAppended(t: Tables, p: string, e: Event, u: Tables)
    requires p in t.payments
  {
    var row := t.payments[p];
    u == t.(payments := t.payments[p := row.(events := row.events + [e])], keys := t.keys[EventKey(e.eventId) := p])
  }

  lemma StandingWriteShape(t: Tables, p: string, draft: Event)
    requires p in t.payments && FollowsEffect(t.payments[p], draft)
    requires draft.state in {PendingOutcome, NeedsAttention} && PublicShape(draft) && draft.snapshotAt.None?
    ensures OutcomeSound(t.payments[p], draft) && !Terminal(t.payments[p]) && !draft.state.Released? && !draft.state.Consumed?
    ensures draft.evidence != Some(PreDispatch)
    ensures var u := WithEvent(t, p, draft);
            && p in u.payments && u.payments == t.payments[p := AppendEvent(t.payments[p], draft)]
            && u.keys == t.keys[EventKey(draft.eventId) := p] && u.invoices == t.invoices && u.journals == t.journals
            && u.proofClaims == t.proofClaims && u.invoiceClaims == t.invoiceClaims
  {
    hide NeverPaid, NeverSpent;
  }

  lemma StandingWriteIsSound(t: Tables, p: string, draft: Event)
    requires Sound(t) && p in t.payments && FollowsEffect(t.payments[p], draft) && EventKey(draft.eventId) !in t.keys
    requires draft.state in {PendingOutcome, NeedsAttention} && PublicShape(draft) && draft.snapshotAt.None?
    ensures Sound(WithEvent(t, p, draft))
  {
    hide *;
    var u := WithEvent(t, p, draft);
    StandingWriteShape(t, p, draft);
    RowIsSound(t, p);
    UnusedIdIsNew(t, p, draft.eventId);
    TransitionKeepsRow(t.invoices[t.payments[p].reservation.invoiceId], t.payments[p], draft);
    AppendFacts(t.payments[p], draft);
    NotTerminal(t.payments[p]);
    SoundParts(t);
    EventWriteKeeps(t, u, p, draft);
    RowWriteClaims(t, u, p);
    NotConsumedHasNoJournal(t, p);
    RowWriteAccounts(t, u, p);
    SoundFromParts(u);
  }

  lemma StandingWriteReads(t: Tables, p: string, draft: Event)
    requires Sound(t) && p in t.payments && Readable(t, p) && FollowsEffect(t.payments[p], draft)
    requires draft.state in {PendingOutcome, NeedsAttention} && PublicShape(draft) && draft.snapshotAt.None?
    requires EventKey(draft.eventId) !in t.keys
    ensures p in WithEvent(t, p, draft).payments && Readable(WithEvent(t, p, draft), p)
  {
    hide *;
    StandingWriteIsSound(t, p, draft);
    StandingWriteShape(t, p, draft);
    ReadableIffDispatchQuoteUnpaid(t, p);
    AppendKeepsDispatchQuote(t.payments[p], draft);
    ReadableIffDispatchQuoteUnpaid(WithEvent(t, p, draft), p);
  }

  lemma AttentionShape(t: Tables, p: string, effectId: string, eventId: string, why: AttentionReason, evidenceAt: nat, at: nat)
    requires p in t.payments
    ensures var draft := AttentionDraft(effectId, eventId, why, evidenceAt, at);
            && PublicShape(draft) && draft.snapshotAt.None? && draft.state.NeedsAttention? && draft.eventId == eventId
            && (EventAllowed(t, p, effectId, evidenceAt, at)
                <==> Readable(t, p) && FollowsEffect(t.payments[p], draft) && |t.payments[p].events| < MAX_EVENTS)
  {
    assert p in t.payments && Active(t.payments[p]) ==> t.payments[p].events != [];
    hide Readable;
  }

  lemma PendingShape(t: Tables, p: string, effectId: string, eventId: string, evidenceAt: nat, at: nat)
    requires p in t.payments
    ensures var draft := PendingDraft(effectId, eventId, evidenceAt, at);
            && PublicShape(draft) && draft.snapshotAt.None? && draft.state.PendingOutcome? && draft.eventId == eventId
            && (EventAllowed(t, p, effectId, evidenceAt, at) && t.payments[p].effect.value.kind.Melt?
                <==> Readable(t, p) && FollowsEffect(t.payments[p], draft) && |t.payments[p].events| < MAX_EVENTS)
  {
    assert p in t.payments && Active(t.payments[p]) ==> t.payments[p].events != [];
    hide Readable;
  }

  lemma RecordsExactlyWhen(t: Tables, p: string, draft: Event)
    requires Sound(t) && p in t.payments && EventKey(draft.eventId) !in t.keys
    requires draft.state in {PendingOutcome, NeedsAttention} && PublicShape(draft) && draft.snapshotAt.None?
    ensures RecordEvent(t, p, draft).Ok?
            <==> Readable(t, p) && FollowsEffect(t.payments[p], draft) && |t.payments[p].events| < MAX_EVENTS
    ensures RecordEvent(t, p, draft).Ok? ==> RecordEvent(t, p, draft) == Fresh(WithEvent(t, p, draft))
  {
    hide Sound, Readable, FollowsEffect, PublicShape;
    if Readable(t, p) && FollowsEffect(t.payments[p], draft) { StandingWriteReads(t, p, draft); }
  }

  /** An attention event is recorded exactly when its guards hold, whatever the reason. */
  lemma AttendsExactlyWhenAllowed(t: Tables, p: string, effectId: string, eventId: string, why: AttentionReason, evidenceAt: nat, at: nat)
    requires Sound(t) && p in t.payments && EventKey(eventId) !in t.keys
    ensures var c := CallRequireAttention(p, effectId, eventId, why, evidenceAt, at);
            && (Apply(t, c).Ok? <==> EventAllowed(t, p, effectId, evidenceAt, at))
            && (Apply(t, c).Ok? ==>
                  EventAppended(t, p, Event(eventId, NeedsAttention, at, Some(effectId), Some(Attention(why)), Some(evidenceAt),
                                            None, None), After(t, c)))
  {
    var draft := AttentionDraft(effectId, eventId, why, evidenceAt, at);
    hide Sound, Readable, FollowsEffect, EventAllowed, RecordEvent, PublicShape;
    AttentionShape(t, p, effectId, eventId, why, evidenceAt, at);
    RecordsExactlyWhen(t, p, draft);
  }

  /** A pending event is recorded exactly when its guards hold, on melts only. */
  lemma PendsExactlyWhenAllowed(t: Tables, p: string, effectId: string, eventId: string, evidenceAt: nat, at: nat)
    requires Sound(t) && p in t.payments && EventKey(eventId) !in t.keys
    ensures var c := CallRecordPending(p, effectId, eventId, evidenceAt, at);
            && (Apply(t, c).Ok? <==> EventAllowed(t, p, effectId, evidenceAt, at) && t.payments[p].effect.value.kind.Melt?)
            && (Apply(t, c).Ok? ==>
                  EventAppended(t, p, Event(eventId, PendingOutcome, at, Some(effectId), Some(OperatorPending), Some(evidenceAt),
                                            None, None), After(t, c)))
  {
    var draft := PendingDraft(effectId, eventId, evidenceAt, at);
    hide Sound, Readable, FollowsEffect, EventAllowed, RecordEvent, PublicShape;
    PendingShape(t, p, effectId, eventId, evidenceAt, at);
    RecordsExactlyWhen(t, p, draft);
  }

  // ------------------------------------------------- release before dispatch

  lemma EarlyReleaseShape(t: Tables, p: string, eventId: string, at: nat)
    requires p in t.payments
    ensures var draft := ReleaseDraft(ReleasePreDispatch(eventId, at));
            var u := WithoutClaims(WithEvent(t, p, draft), p);
            && draft.eventId == eventId && draft.state.Released? && draft.evidence == Some(PreDispatch)
            && p in u.payments && u.payments == t.payments[p := AppendEvent(t.payments[p], draft)]
            && u.keys == t.keys[EventKey(eventId) := p] && u.invoices == t.invoices && u.journals == t.journals
            && u.proofClaims == t.proofClaims - ProofClaimsOf(t, p) && u.invoiceClaims == t.invoiceClaims - InvoiceClaimsOf(t, p)
  {
    var draft := ReleaseDraft(ReleasePreDispatch(eventId, at));
    assert ProofClaimsOf(WithEvent(t, p, draft), p) == ProofClaimsOf(t, p);
    assert InvoiceClaimsOf(WithEvent(t, p, draft), p) == InvoiceClaimsOf(t, p);
  }

  lemma EarlyReleaseReads(t: Tables, p: string, eventId: string, at: nat)
    requires Sound(t) && p in t.payments && EventKey(eventId) !in t.keys
    requires Current(t.payments[p]).Reserved? && t.payments[p].effect.None? && t.payments[p].reservation.reservedAt <= at
    ensures var u := WithoutClaims(WithEvent(t, p, ReleaseDraft(ReleasePreDispatch(eventId, at))), p);
            p in u.payments && Readable(u, p)
  {
    hide *;
    var draft := ReleaseDraft(ReleasePreDispatch(eventId, at));
    var u := WithoutClaims(WithEvent(t, p, draft), p);
    EarlyReleaseShape(t, p, eventId, at);
    RowIsSound(t, p);
    PreDispatchReleaseKeepsRow(t.invoices[t.payments[p].reservation.invoiceId], t.payments[p], eventId, at);
    AppendFacts(t.payments[p], draft);
    ReservedIsNotTerminal(t.payments[p]);
    SoundParts(t);
    EventWriteKeeps(t, u, p, draft);
    ReleasedClaims(t, u, p);
    NotConsumedHasNoJournal(t, p);
    RowWriteAccounts(t, u, p);
    SoundFromParts(u);
    ReadableBeforeDispatch(u, p);
  }

  /** A reservation is released before dispatch exactly while it is reserved, and gives up all its claims. */
  lemma ReleasesEarlyExactlyWhenReserved(t: Tables, p: string, eventId: string, at: nat)
    requires Sound(t) && p in t.payments && EventKey(eventId) !in t.keys
    ensures var r := Release(t, p, ReleasePreDispatch(eventId, at));
            && (r.Ok? <==> Current(t.payments[p]).Reserved? && t.payments[p].effect.None?
                           && t.payments[p].reservation.reservedAt <= at)
            && (r.Ok? ==>
                  var u, row := r.value.tables, t.payments[p];
                  var released := Event(eventId, Released, at, None, Some(PreDispatch), None, None, None);
                  && u.payments == t.payments[p := row.(events := row.events + [released], custodyAt := None)]
                  && u.proofClaims == t.proofClaims - ProofClaimsOf(t, p)
                  && u.invoiceClaims == t.invoiceClaims - InvoiceClaimsOf(t, p))
  {
    var row, draft := t.payments[p], ReleaseDraft(ReleasePreDispatch(eventId, at));
    assert Release(t, p, ReleasePreDispatch(eventId, at)) == PersistTransition(t, p, draft) by { hide PersistTransition; }
    hide Sound, Readable, WithoutClaims, WithEvent, PersistTransition, Release;
    EarlyReleaseShape(t, p, eventId, at);
    if Current(row).Reserved? && row.effect.None? && row.reservation.reservedAt <= at {
      EarlyReleaseReads(t, p, eventId, at);
      ReadableBeforeDispatch(t, p);
      EarlyReleaseCommits(t, p, draft);
    }
    if PersistTransition(t, p, draft).Ok? { TransitionShape(t, p, draft); }
  }

  lemma EarlyReleaseCommits(t: Tables, p: string, draft: Event)
    requires p in t.payments && draft.state.Released? && draft.evidence == Some(PreDispatch) && EventKey(draft.eventId) !in t.keys
    requires Current(t.payments[p]).Reserved? && t.payments[p].effect.None?
    requires t.payments[p].reservation.reservedAt <= draft.recordedAt && Readable(t, p)
    requires p in WithoutClaims(WithEvent(t, p, draft), p).payments && Readable(WithoutClaims(WithEvent(t, p, draft), p), p)
    ensures PersistTransition(t, p, draft) == Fresh(WithoutClaims(WithEvent(t, p, draft), p))
    ensures PersistTransition(t, p, draft).Ok?
  {
    hide Readable;
  }

  // -------------------------------------------------------------- replays

  lemma InFrontOrLast(events: seq<Event>, e: Event)
    requires events != []
    ensures e in events <==> e in events[..|events| - 1] || e == Last(events)
  {
    assert events == events[..|events| - 1] + [Last(events)];
  }

  lemma FrontIsDistinct(events: seq<Event>, e: Event)
    requires DistinctIds(events) && events != []
    ensures DistinctIds(events[..|events| - 1])
    ensures e in events[..|events| - 1] ==> e.eventId != Last(events).eventId
  {
    var front := events[..|events| - 1];
    assert forall i :: 0 <= i < |front| ==> front[i] == events[i];
  }

  lemma {:induction false} FoundIsTheOneStored(events: seq<Event>, draft: Event)
    requires DistinctIds(events)
    ensures FindEvent(events, draft.eventId) == Some(draft) <==> draft in events
  {
    if events != [] {
      InFrontOrLast(events, draft);
      FrontIsDistinct(events, draft);
      hide DistinctIds;
      FoundIsTheOneStored(events[..|events| - 1], draft);
    }
  }

  /** A used event id is only ever answered by its own event: the same draft replays and changes nothing, any other is refused. */
  lemma ReplaysExactlyItself(t: Tables, p: string, draft: Event)
    requires Sound(t) && p in t.payments && EventKey(draft.eventId) in t.keys
    ensures PersistTransition(t, p, draft).Ok?
            <==> t.keys[EventKey(draft.eventId)] == p && Readable(t, p) && draft in t.payments[p].events
    ensures PersistTransition(t, p, draft).Ok? ==> PersistTransition(t, p, draft) == Ok(Committed(t, true))
  {
    hide Sound, Readable;
    EventsAreDistinct(t, p);
    FoundIsTheOneStored(t.payments[p].events, draft);
  }

  lemma EventsAreDistinct(t: Tables, p: string)
    requires Sound(t) && p in t.payments
    ensures DistinctIds(t.payments[p].events)
  {
    hide Sound, SnapshotsSound, QuotesSound;
    RowIsSound(t, p);
  }

  /** So is a start: the same event with the same effect replays, any other is refused. */
  lemma StartReplaysExactlyItself(t: Tables, p: string, eventId: string, effect: Effect)
    requires Sound(t) && p in t.payments && EventKey(eventId) in t.keys
    ensures var started := Event(eventId, DispatchStarted, effect.startedAt, Some(effect.effectId), None, None, None, None);
            StartEffect(t, p, eventId, effect).Ok?
            <==> t.keys[EventKey(eventId)] == p && Readable(t, p) && started in t.payments[p].events
                 && t.payments[p].effect == Some(effect)
    ensures StartEffect(t, p, eventId, effect).Ok? ==> StartEffect(t, p, eventId, effect) == Ok(Committed(t, true))
  {
    hide Sound, Readable;
    EventsAreDistinct(t, p);
    FoundIsTheOneStored(t.payments[p].events, StartDraft(eventId, effect));
    if t.payments[p].effect == Some(effect) && effect.kind.Melt? { StoredEffectIsTimely(t, p); }
  }

  lemma StoredEffectIsTimely(t: Tables, p: string)
    requires Sound(t) && p in t.payments && t.payments[p].effect.Some? && t.payments[p].effect.value.kind.Melt?
    ensures t.payments[p].effect.value.startedAt < t.payments[p].effect.value.kind.referenceExpiresAt
  {
    hide Sound, SnapshotsSound, QuotesSound, EventsSound;
    RowIsSound(t, p);
  }
}
