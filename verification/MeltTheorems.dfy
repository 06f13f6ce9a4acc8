/**
 * What the repository calls guarantee together, over whole runs.
 */
module MeltTheorems {
  import opened Outcomes
  import opened MeltRecords
  import opened MeltStore
  import opened MeltRows
  import opened MeltInvariants
  import opened MeltCalls
  import ProofHistory
  import Ledger

  // ------------------------------------------------- release after expiry

  predicate ReleasedAfterExpiry(row: PaymentRow) {
    exists k :: 0 <= k < |row.events| && row.events[k].evidence == Some(MeltUnpaidAfterExpiry)
  }

  ghost predicate PaymentSeen(row: PaymentRow) {
    !NeverPaid(row) || !NeverSpent(row)
  }

  lemma ReleasedRowFacts(ir: InvoiceRow, row: PaymentRow)
    requires RowSound(ir, row) && ReleasedAfterExpiry(row)
    ensures NeverPaid(row) && NeverSpent(row) && Current(row).Released?
    ensures var e := Last(row.events);
            && row.effect.Some? && row.effect.value.kind.Melt?
            && e.evidence == Some(MeltUnpaidAfterExpiry) && e.evidenceAt.Some?
            && row.effect.value.kind.referenceExpiresAt <= e.evidenceAt.value
  {
    var k :| 0 <= k < |row.events| && row.events[k].evidence == Some(MeltUnpaidAfterExpiry);
    assert OutcomeSound(row, row.events[k]);
    assert StepReadable(row, k);
    TerminalIsLast(row, k);
  }

  /**
   * A payment released because its melt was unpaid after expiry has no PAID quote observation and no SPENT
   * proof anywhere in its history, rests on evidence from after the expiry, and never changes again.
   */
  lemma ReleasedAfterExpiryIsUnpaidForever(trace: seq<Tables>, calls: seq<Call>, i: nat, j: nat, p: string)
    requires IsRun(trace, calls) && i <= j < |trace|
    requires p in trace[i].payments && ReleasedAfterExpiry(trace[i].payments[p])
    ensures var row := trace[i].payments[p];
            && p in trace[j].payments && trace[j].payments[p] == row
            && NeverPaid(row) && NeverSpent(row) && Current(row).Released?
            && row.effect.Some? && row.effect.value.kind.Melt? && Last(row.events).evidenceAt.Some?
            && row.effect.value.kind.referenceExpiresAt <= Last(row.events).evidenceAt.value
  {
    hide *;
    RunGrows(trace, calls, i, j);
    RunIsSound(trace, calls, i);
    RowInInvoice(trace[i], p);
    ReleasedRowFacts(trace[i].invoices[trace[i].payments[p].reservation.invoiceId], trace[i].payments[p]);
    PaymentsStay(trace[i], trace[j], p);
    TerminalNeverChanges(trace[i].payments[p], trace[j].payments[p]);
  }

  lemma TerminalNeverChanges(a: PaymentRow, b: PaymentRow)
    requires Grows(a, b) && (Current(a).Released? || Current(a).Consumed?)
    ensures b == a
  {
  }

  lemma SeenStaysSeen(a: PaymentRow, b: PaymentRow)
    requires Grows(a, b) && PaymentSeen(a)
    ensures PaymentSeen(b)
  {
    if !NeverPaid(a) {
      var i :| 0 <= i < |a.sightings| && a.sightings[i].state.Paid?;
      assert b.sightings[i] == a.sightings[i];
    } else {
      var at, i :| at in a.snapshots && 0 <= i < |a.snapshots[at]| && a.snapshots[at][i] == ProofHistory.Spent;
      assert b.snapshots[at][i] == ProofHistory.Spent;
    }
  }

  /** A committed after-expiry release leaves its event in the payment's history. */
  lemma CommittedReleaseIsRecorded(t: Tables, p: string, input: ReleaseInput)
    requires input.ReleaseAfterFailure? && input.evidence.MeltUnpaidAfterExpiry? && Release(t, p, input).Ok?
    ensures p in Release(t, p, input).value.tables.payments
            && ReleasedAfterExpiry(Release(t, p, input).value.tables.payments[p])
  {
    ReleaseShape(t, p, input);
    var draft := ReleaseDraft(input);
    assert draft.evidence == Some(MeltUnpaidAfterExpiry);
    hide Release;
    if EventKey(input.eventId) in t.keys {
      assert FindEvent(t.payments[p].events, input.eventId) == Some(draft) by { hide Readable; }
      FoundEventIsStored(t.payments[p].events, input.eventId);
      hide Readable;
    } else {
      TransitionShape(t, p, draft);
      hide PersistTransition, Readable;
      var after := AppendEvent(t.payments[p], draft);
      assert Last(after.events) == draft;
    }
  }

  lemma {:induction false} FoundEventIsStored(events: seq<Event>, id: string)
    requires FindEvent(events, id).Some?
    ensures FindEvent(events, id).value.eventId == id
    ensures exists k :: 0 <= k < |events| && events[k] == FindEvent(events, id).value
  {
    if Last(events).eventId != id {
      FoundEventIsStored(events[..|events| - 1], id);
      var k :| 0 <= k < |events| - 1 && events[..|events| - 1][k] == FindEvent(events, id).value;
      assert events[k] == FindEvent(events, id).value;
    } else {
      assert events[|events| - 1] == FindEvent(events, id).value;
    }
  }

  /** Once a PAID observation or a SPENT proof is stored, no after-expiry release can ever commit. */
  lemma PaymentEvidenceBlocksRelease(trace: seq<Tables>, calls: seq<Call>, i: nat, j: nat, p: string, input: ReleaseInput)
    requires IsRun(trace, calls) && i <= j < |trace|
    requires p in trace[i].payments && PaymentSeen(trace[i].payments[p])
    requires input.ReleaseAfterFailure? && input.evidence.MeltUnpaidAfterExpiry?
    ensures p in trace[j].payments && !ReleasedAfterExpiry(trace[j].payments[p])
    ensures Release(trace[j], p, input).Err?
  {
    hide IsRun, Release, PaymentSeen, ReleasedAfterExpiry;
    RunGrows(trace, calls, i, j);
    SeenExcludesRelease(trace[i], trace[j], p);
    if Release(trace[j], p, input).Ok? {
      var u := Release(trace[j], p, input).value.tables;
      CommittedReleaseIsRecorded(trace[j], p, input);
      FailureReleaseKeeps(trace[j], p, input);
      SeenExcludesRelease(trace[j], u, p) by { SeenInBetween(trace[i], trace[j], p); }
    }
  }

  lemma SeenInBetween(t: Tables, u: Tables, p: string)
    requires TablesGrow(t, u) && p in t.payments && PaymentSeen(t.payments[p])
    ensures p in u.payments && PaymentSeen(u.payments[p])
  {
    SeenStaysSeen(t.payments[p], u.payments[p]);
  }

  lemma SeenExcludesRelease(t: Tables, u: Tables, p: string)
    requires Sound(u) && TablesGrow(t, u) && p in t.payments && PaymentSeen(t.payments[p])
    ensures p in u.payments && !ReleasedAfterExpiry(u.payments[p])
  {
    SeenStaysSeen(t.payments[p], u.payments[p]);
    RowIsSound(u, p);
    hide Sound, TablesGrow, RowSound, ReleasedAfterExpiry;
    if ReleasedAfterExpiry(u.payments[p]) {
      ReleasedRowFacts(u.invoices[u.payments[p].reservation.invoiceId], u.payments[p]);
    }
  }

  // --------------------------------------------------- readers and writers

  /** The one kind of commit that can make a payment unreadable: a non-UNPAID observation from dispatch or before. */
  predicate ObservesAtOrBeforeDispatch(t: Tables, c: Call, p: string) {
    && c.CallObserveQuote? && c.p == p && p in t.payments
    && t.payments[p].effect.Some? && t.payments[p].effect.value.kind.Melt?
    && c.quote.observedAt <= t.payments[p].effect.value.startedAt
    && !c.quote.state.Unpaid?
  }

  lemma ObservedRow(t: Tables, p: string, attemptId: string, quote: Quote)
    requires ObserveQuote(t, p, attemptId, quote).Ok?
    ensures p in t.payments
    ensures var row, u := t.payments[p], ObserveQuote(t, p, attemptId, quote).value.tables;
            if ObserveQuote(t, p, attemptId, quote).value.replayed then u == t
            else u == WithRow(t, p, row.(sightings := row.sightings + [Sighting(quote.observedAt, quote.state)]))
  {
  }

  /** A call other than that one leaves what was readable at dispatch readable. */
  lemma OtherCallsKeepDispatchQuote(t: Tables, c: Call, p: string)
    requires Sound(t) && p in t.payments && DispatchQuoteReadable(t.payments[p])
    requires !c.CallObserveQuote?
    requires p in After(t, c).payments
    ensures DispatchQuoteReadable(After(t, c).payments[p])
  {
    hide Sound, DispatchQuoteReadable, StartEffect, Accept, Release, RecordEvent, CreateInvoice, Reserve, StoreCustody,
         BeginQuote, RecordAmbiguous, RecordQuote, ObserveQuote, ObserveProofs;
    if Apply(t, c).Ok? {
      match c
      case CallStartEffect(q, id, e) => StartKeepsDispatchQuotes(t, q, id, e, p);
      case CallRecordPending(q, e, id, evidenceAt, at) => RecordKeepsDispatchQuotes(t, q, PendingDraft(e, id, evidenceAt, at), p);
      case CallRequireAttention(q, e, id, reason, evidenceAt, at) =>
        RecordKeepsDispatchQuotes(t, q, AttentionDraft(e, id, reason, evidenceAt, at), p);
      case CallAccept(q, input) => AcceptKeepsDispatchQuotes(t, q, input, p);
      case CallRelease(q, input) => ReleaseKeepsDispatchQuotes(t, q, input, p);
      case _ => EarlyCallKeepsDispatch(t, c, p);
    }
  }

  lemma StartKeepsDispatchQuotes(t: Tables, q: string, id: string, e: Effect, p: string)
    requires Sound(t) && p in t.payments && DispatchQuoteReadable(t.payments[p]) && StartEffect(t, q, id, e).Ok?
    ensures p in StartEffect(t, q, id, e).value.tables.payments
    ensures DispatchQuoteReadable(StartEffect(t, q, id, e).value.tables.payments[p])
  {
    StartNeedsPayment(t, q, id, e);
    hide Sound, StartEffect, HasQuotedEvidence, TermsMatchEffect, LastAtOrBefore;
    if EventKey(id) in t.keys {
      StartReplayShape(t, q, id, e);
    } else {
      StartConditions(t, q, id, e);
      StartShape(t, q, id, e);
    }
  }

  lemma AppendKeepsDispatchQuote(row: PaymentRow, draft: Event)
    requires DispatchQuoteReadable(row)
    ensures DispatchQuoteReadable(AppendEvent(row, draft))
  {
    hide LastAtOrBefore;
  }

  lemma RecordKeepsDispatchQuotes(t: Tables, q: string, draft: Event, p: string)
    requires p in t.payments && DispatchQuoteReadable(t.payments[p]) && RecordEvent(t, q, draft).Ok?
    ensures p in RecordEvent(t, q, draft).value.tables.payments
    ensures DispatchQuoteReadable(RecordEvent(t, q, draft).value.tables.payments[p])
  {
    hide PersistTransition, DispatchQuoteReadable;
    EventCallKeepsSightings(t, q, draft);
    AppendKeepsIf(t.payments[q], draft);
  }

  lemma AppendKeepsIf(row: PaymentRow, draft: Event)
    ensures DispatchQuoteReadable(row) ==> DispatchQuoteReadable(AppendEvent(row, draft))
  {
    if DispatchQuoteReadable(row) { AppendKeepsDispatchQuote(row, draft); }
  }

  lemma AcceptKeepsDispatchQuotes(t: Tables, q: string, input: AcceptInput, p: string)
    requires Sound(t) && p in t.payments && DispatchQuoteReadable(t.payments[p]) && Accept(t, q, input).Ok?
    ensures p in Accept(t, q, input).value.tables.payments
    ensures DispatchQuoteReadable(Accept(t, q, input).value.tables.payments[p])
  {
    hide Sound, Accept, DispatchQuoteReadable;
    AcceptShape(t, q, input);
    if EventKey(input.eventId) !in t.keys {
      AcceptFacts(t, q, input, Accept(t, q, input).value.tables);
      hide AcceptWrites;
      AppendKeepsIf(t.payments[q], AcceptDraft(input));
    }
  }

  lemma ReleaseIsTransition(t: Tables, q: string, input: ReleaseInput)
    requires Release(t, q, input).Ok?
    ensures q in t.payments && Release(t, q, input) == PersistTransition(t, q, ReleaseDraft(input))
  {
    hide PersistTransition;
    if input.ReleaseAfterFailure? { ReleaseShape(t, q, input); }
  }

  lemma ReleaseKeepsDispatchQuotes(t: Tables, q: string, input: ReleaseInput, p: string)
    requires p in t.payments && DispatchQuoteReadable(t.payments[p]) && Release(t, q, input).Ok?
    ensures p in Release(t, q, input).value.tables.payments
    ensures DispatchQuoteReadable(Release(t, q, input).value.tables.payments[p])
  {
    hide Release, PersistTransition, DispatchQuoteReadable;
    ReleaseIsTransition(t, q, input);
    EventCallKeepsSightings(t, q, ReleaseDraft(input));
    AppendKeepsIf(t.payments[q], ReleaseDraft(input));
  }

  lemma EventCallKeepsSightings(t: Tables, q: string, draft: Event)
    requires q in t.payments && PersistTransition(t, q, draft).Ok?
    ensures var u := PersistTransition(t, q, draft).value.tables;
            u.payments == t.payments || u.payments == t.payments[q := AppendEvent(t.payments[q], draft)]
  {
    if EventKey(draft.eventId) in t.keys {
      TransitionReplayShape(t, q, draft);
    } else {
      TransitionShape(t, q, draft);
    }
  }

  lemma EarlyCallKeepsDispatch(t: Tables, c: Call, p: string)
    requires p in t.payments && DispatchQuoteReadable(t.payments[p]) && Apply(t, c).Ok?
    requires c.CallCreateInvoice? || c.CallReserve? || c.CallStoreCustody? || c.CallBeginQuote? || c.CallRecordAmbiguous?
          || c.CallRecordQuote? || c.CallObserveProofs?
    ensures p in After(t, c).payments && DispatchQuoteReadable(After(t, c).payments[p])
  {
    hide HasQuotedEvidence, AttemptMatches, ProofHistory.Persist, NormalReservation, LastAtOrBefore, EventsReadable;
  }

  lemma SightingEffect(t: Tables, p: string, attemptId: string, quote: Quote, q: string)
    requires ObserveQuote(t, p, attemptId, quote).Ok? && q in t.payments && DispatchQuoteReadable(t.payments[q])
    ensures var u := ObserveQuote(t, p, attemptId, quote).value.tables;
            && q in u.payments
            && (DispatchQuoteReadable(u.payments[q])
                <==> !(ObservesAtOrBeforeDispatch(t, CallObserveQuote(p, attemptId, quote), q)
                       && !ObserveQuote(t, p, attemptId, quote).value.replayed))
  {
    ObservedRow(t, p, attemptId, quote);
    hide ObserveQuote, LastAtOrBefore;
    if q == p && t.payments[p].effect.Some? {
      var startedAt := t.payments[p].effect.value.startedAt;
      var seen := Sighting(quote.observedAt, quote.state);
      if seen.observedAt <= startedAt { EarlierSightingShows(t.payments[p].sightings, seen, startedAt); }
      else { LaterSightingInvisible(t.payments[p].sightings, seen, startedAt); }
    }
  }

  /** Readability is lost exactly by committing such an observation; no other call can cost it. */
  lemma ReadabilityLostOnlyByEarlySighting(t: Tables, c: Call, p: string)
    requires Sound(t) && p in t.payments && Readable(t, p)
    ensures p in After(t, c).payments
    ensures Readable(After(t, c), p)
            <==> !(ObservesAtOrBeforeDispatch(t, c, p) && Apply(t, c).Ok? && !Apply(t, c).value.replayed)
  {
    hide *;
    ApplyKeeps(t, c);
    PaymentsStay(t, After(t, c), p);
    ReadableIffDispatchQuoteUnpaid(t, p);
    ReadableIffDispatchQuoteUnpaid(After(t, c), p);
    DispatchQuoteAfter(t, c, p);
  }

  lemma PaymentsStay(t: Tables, u: Tables, p: string)
    requires TablesGrow(t, u) && p in t.payments
    ensures p in u.payments && Grows(t.payments[p], u.payments[p])
  {
  }

  lemma DispatchQuoteAfter(t: Tables, c: Call, p: string)
    requires Sound(t) && p in t.payments && DispatchQuoteReadable(t.payments[p]) && p in After(t, c).payments
    ensures DispatchQuoteReadable(After(t, c).payments[p])
            <==> !(ObservesAtOrBeforeDispatch(t, c, p) && Apply(t, c).Ok? && !Apply(t, c).value.replayed)
  {
    hide Sound, DispatchQuoteReadable, ObserveQuote;
    if !c.CallObserveQuote? {
      OtherCallsKeepDispatchQuote(t, c, p);
    } else if Apply(t, c).Ok? {
      SightingEffect(t, c.p, c.attemptId, c.quote, p);
    }
  }

  /** The guards of startEffect, without the load that ends its transaction. */
  predicate StartAllowed(t: Tables, p: string, effect: Effect)
    requires p in t.payments
  {
    && (effect.kind.Melt? ==> effect.startedAt < effect.kind.referenceExpiresAt)
    && Readable(t, p) && Current(t.payments[p]).Reserved? && t.payments[p].effect.None?
    && var invoice := InvoiceOf(t, t.payments[p]);
       && invoice.paidAt.None? && invoice.createdAt <= effect.startedAt < invoice.expiresAt
       && t.payments[p].reservation.reservedAt <= effect.startedAt
       && (effect.kind.Melt? ==> DispatchEvidence(t, t.payments[p], effect).None?)
       && EffectKeys(t.payments[p].reservation.mintUrl, effect) !! t.keys.Keys
       && t.payments[p].reservation.invoiceId !in t.invoiceClaims
  }

  /** An effect starts exactly when its guards hold: the write it makes always reads back. */
  lemma StartsExactlyWhenAllowed(t: Tables, p: string, eventId: string, effect: Effect)
    requires Sound(t) && p in t.payments && EventKey(eventId) !in t.keys
    ensures StartEffect(t, p, eventId, effect).Ok? <==> StartAllowed(t, p, effect)
  {
    hide *;
    if StartAllowed(t, p, effect) {
      StartWriteReads(t, p, eventId, effect);
      AllowedStartCommits(t, p, eventId, effect);
    }
    if StartEffect(t, p, eventId, effect).Ok? {
      StartedWasAllowed(t, p, eventId, effect);
    }
  }

  lemma AllowedStartCommits(t: Tables, p: string, eventId: string, effect: Effect)
    requires p in t.payments && EventKey(eventId) !in t.keys && StartAllowed(t, p, effect)
    requires p in StartWritten(t, p, eventId, effect).payments && Readable(StartWritten(t, p, eventId, effect), p)
    ensures StartEffect(t, p, eventId, effect).Ok?
    ensures StartEffect(t, p, eventId, effect).value == Committed(StartWritten(t, p, eventId, effect), false)
  {
    assert HasInvoice(t, t.payments[p]) by { assert Readable(t, p); }
    hide Readable, DispatchEvidence, StartWritten, EffectKeys;
  }

  lemma StartedWasAllowed(t: Tables, p: string, eventId: string, effect: Effect)
    requires p in t.payments && EventKey(eventId) !in t.keys && StartEffect(t, p, eventId, effect).Ok?
    ensures StartAllowed(t, p, effect)
  {
    assert HasInvoice(t, t.payments[p]) by { assert Readable(t, p); }
    hide Readable, DispatchEvidence, StartWritten, EffectKeys;
  }

  lemma StartWriteReads(t: Tables, p: string, eventId: string, effect: Effect)
    requires Sound(t) && p in t.payments && EventKey(eventId) !in t.keys && StartAllowed(t, p, effect)
    ensures p in StartWritten(t, p, eventId, effect).payments && Readable(StartWritten(t, p, eventId, effect), p)
  {
    hide *;
    StartWriteIsSound(t, p, eventId, effect);
    AllowedFacts(t, p, effect);
    StartWriteShape(t, p, eventId, effect);
    StartedDispatchQuote(t, p, eventId, effect);
    ReadableIffDispatchQuoteUnpaid(StartWritten(t, p, eventId, effect), p);
  }

  lemma StartedDispatchQuote(t: Tables, p: string, eventId: string, effect: Effect)
    requires p in t.payments && StartAllowed(t, p, effect)
    ensures DispatchQuoteReadable(AppendEvent(t.payments[p].(effect := Some(effect)), StartDraft(eventId, effect)))
  {
    hide Readable, HasQuotedEvidence, TermsMatchEffect, LastAtOrBefore;
  }

  lemma StartWriteShape(t: Tables, p: string, eventId: string, effect: Effect)
    requires p in t.payments && EventKey(eventId) !in t.keys && EffectKeys(t.payments[p].reservation.mintUrl, effect) !! t.keys.Keys
    ensures var row, u := t.payments[p], StartWritten(t, p, eventId, effect);
            && u.payments == t.payments[p := AppendEvent(row.(effect := Some(effect)), StartDraft(eventId, effect))]
            && u.invoiceClaims == t.invoiceClaims[row.reservation.invoiceId := p]
            && (forall k :: k in t.keys ==> k in u.keys && u.keys[k] == t.keys[k])
            && EventKey(eventId) in u.keys && u.keys[EventKey(eventId)] == p
            && u.proofClaims == t.proofClaims && u.journals == t.journals && u.invoices == t.invoices
  {
  }

  lemma AllowedFacts(t: Tables, p: string, effect: Effect)
    requires Sound(t) && p in t.payments && StartAllowed(t, p, effect)
    ensures var row := t.payments[p];
            && HasInvoice(t, row) && Current(row).Reserved? && row.effect.None?
            && EffectKeys(row.reservation.mintUrl, effect) !! t.keys.Keys && row.reservation.invoiceId !in t.invoiceClaims
            && (effect.kind.Melt? ==> effect.startedAt < effect.kind.referenceExpiresAt)
            && var ir := t.invoices[row.reservation.invoiceId];
               && ir.invoice.createdAt <= effect.startedAt < ir.invoice.expiresAt
               && row.reservation.reservedAt <= effect.startedAt
               && (effect.kind.Melt? ==>
                     HasQuotedEvidence(row) && RouteIn(ir, row.reservation).Some?
                     && TermsMatchEffect(row, ir.invoice, RouteIn(ir, row.reservation).value, effect))
  {
    RowIsSound(t, p);
    hide Sound, RowSound, Readable, HasQuotedEvidence, TermsMatchEffect, UnpaidAtDispatch;
  }

  lemma StartWriteIsSound(t: Tables, p: string, eventId: string, effect: Effect)
    requires Sound(t) && p in t.payments && EventKey(eventId) !in t.keys && StartAllowed(t, p, effect)
    ensures Sound(StartWritten(t, p, eventId, effect))
  {
    hide *;
    AllowedFacts(t, p, effect);
    StartWriteShape(t, p, eventId, effect);
    assert p in StartWritten(t, p, eventId, effect).payments;
    StartFacts(t.payments[p], eventId, effect);
    RowInInvoice(t, p);
    StartKeepsRow(t.invoices[t.payments[p].reservation.invoiceId], t.payments[p], eventId, effect);
    SoundParts(t);
    var u := StartWritten(t, p, eventId, effect);
    ReservedIsNotTerminal(t.payments[p]);
    EventWriteKeeps(t, u, p, StartDraft(eventId, effect));
    StartClaims(t, u, p);
    NotConsumedHasNoJournal(t, p);
    RowWriteAccounts(t, u, p);
    SoundFromParts(u);
  }

  lemma ReservedIsNotTerminal(row: PaymentRow)
    requires Current(row).Reserved?
    ensures !Current(row).Released? && !Current(row).Consumed?
  {
  }

  // --------------------------------------------------- the reader's proviso

  /** Before dispatch a payment is always readable. */
  lemma ReadableBeforeDispatch(t: Tables, p: string)
    requires Sound(t) && p in t.payments && t.payments[p].effect.None?
    ensures Readable(t, p)
  {
    ReadableIffDispatchQuoteUnpaid(t, p);
    hide Sound, Readable;
  }

  predicate IsLifecycleWrite(c: Call) {
    c.CallStartEffect? || c.CallRecordPending? || c.CallRequireAttention? || c.CallAccept? || c.CallRelease?
  }

  /** An unreadable payment accepts no lifecycle write of any kind. */
  lemma UnreadableBlocksLifecycle(t: Tables, p: string, c: Call)
    requires p in t.payments && !Readable(t, p) && IsLifecycleWrite(c) && c.p == p
    ensures Apply(t, c).Err?
  {
    hide Readable;
  }

  lemma {:induction false} LateSightingsInvisible(s: seq<Sighting>, more: seq<Sighting>, t: nat)
    requires forall k :: 0 <= k < |more| ==> t < more[k].observedAt
    ensures LastAtOrBefore(s + more, t) == LastAtOrBefore(s, t)
  {
    if more == [] {
      assert s + more == s;
    } else {
      var front := more[..|more| - 1];
      LateSightingsInvisible(s, front, t);
      assert s + more == (s + front) + [Last(more)];
      LaterSightingInvisible(s + front, Last(more), t);
    }
  }

  /** A melt in flight, with the quote evidence that its dispatch required. */
  predicate InFlightMelt(row: PaymentRow) {
    && Active(row) && row.effect.Some? && row.effect.value.kind.Melt?
    && row.attempt.Some? && row.outcome.Some? && row.outcome.value.Quoted? && row.sightings != []
  }

  lemma ActiveMeltIsInFlight(t: Tables, p: string)
    requires Sound(t) && p in t.payments && Active(t.payments[p])
    requires t.payments[p].effect.Some? && t.payments[p].effect.value.kind.Melt?
    ensures InFlightMelt(t.payments[p])
  {
    RowIsSound(t, p);
    assert HasQuotedEvidence(t.payments[p]);
  }

  /** The operator answering PENDING in the second of the dispatch. */
  function SameSecondAnswer(row: PaymentRow): Quote
    requires InFlightMelt(row)
  {
    Quote(row.outcome.value.terms, row.effect.value.startedAt, Pending)
  }

  /**
   * The proviso is needed. When the operator answers PENDING in the very second of the dispatch, the
   * observation commits, and from then on nothing can be written to or read from the payment's lifecycle.
   */
  lemma SameSecondAnswerBreaksReading(t: Tables, p: string)
    requires Sound(t) && p in t.payments && Active(t.payments[p])
    requires t.payments[p].effect.Some? && t.payments[p].effect.value.kind.Melt?
    ensures InFlightMelt(t.payments[p])
    ensures var row := t.payments[p];
            !Last(row.sightings).state.Paid? && Last(row.sightings).observedAt < row.effect.value.startedAt ==>
            var done := ObserveQuote(t, p, row.attempt.value.attemptId, SameSecondAnswer(row));
            && done.Ok? && !done.value.replayed && p in done.value.tables.payments
            && !Readable(done.value.tables, p)
            && done.value.tables.payments[p].effect == row.effect
            && done.value.tables.payments[p].sightings == row.sightings + [Sighting(row.effect.value.startedAt, Pending)]
  {
    hide Sound, Readable, ObserveQuote, DispatchQuoteReadable, SameSecondAnswer;
    ActiveMeltIsInFlight(t, p);
    var row := t.payments[p];
    if !Last(row.sightings).state.Paid? && Last(row.sightings).observedAt < row.effect.value.startedAt {
      SameSecondCommits(t, p);
      SameSecondHides(row);
      UnreadableDispatch(ObserveQuote(t, p, row.attempt.value.attemptId, SameSecondAnswer(row)).value.tables, p);
    }
  }

  lemma SameSecondCommits(t: Tables, p: string)
    requires Sound(t) && p in t.payments && InFlightMelt(t.payments[p])
    requires !Last(t.payments[p].sightings).state.Paid?
    requires Last(t.payments[p].sightings).observedAt < t.payments[p].effect.value.startedAt
    ensures var row := t.payments[p];
            var after := row.(sightings := row.sightings + [Sighting(row.effect.value.startedAt, Pending)]);
            var done := ObserveQuote(t, p, row.attempt.value.attemptId, SameSecondAnswer(row));
            && done.Ok? && !done.value.replayed && done.value.tables.payments == t.payments[p := after]
  {
    hide Sound, RowSound, Grows, HasQuotedEvidence, MatchesAttempt;
    var row := t.payments[p];
    RowIsSound(t, p);
    var ir := t.invoices[row.reservation.invoiceId];
    assert HasQuotedEvidence(row) && MatchesAttempt(row, row.attempt.value, row.outcome.value.terms) by { InFlightEvidence(ir, row); }
    var startedAt := row.effect.value.startedAt;
    var seen := Sighting(startedAt, Pending);
    UnsightedAfterLast(row, startedAt);
    SightingKeepsRow(ir, row, seen);
    QuotesReadable(ir, row.(sightings := row.sightings + [seen]));
    hide RowSound, Grows, HasQuotedEvidence, AttemptReadable, SightedAt, MatchesAttempt;
  }

  lemma InFlightEvidence(ir: InvoiceRow, row: PaymentRow)
    requires RowSound(ir, row) && InFlightMelt(row)
    ensures HasQuotedEvidence(row) && MatchesAttempt(row, row.attempt.value, row.outcome.value.terms)
  {
  }

  lemma QuotesReadable(ir: InvoiceRow, row: PaymentRow)
    requires RowSound(ir, row)
    ensures AttemptReadable(row)
  {
  }

  lemma UnsightedAfterLast(row: PaymentRow, at: nat)
    requires HasQuotedEvidence(row) && Last(row.sightings).observedAt < at
    ensures !SightedAt(row.sightings, at)
  {
    forall k | 0 <= k < |row.sightings| ensures row.sightings[k].observedAt < at {
      if k < |row.sightings| - 1 {
        SightingsIncrease(row.attempt.value.startedAt, row.outcome.value.terms.expiry, row.outcome.value.recordedAt,
                          row.sightings, k, |row.sightings| - 1);
      }
    }
  }

  lemma SameSecondHides(row: PaymentRow)
    requires InFlightMelt(row)
    ensures !DispatchQuoteReadable(row.(sightings := row.sightings + [Sighting(row.effect.value.startedAt, Pending)]))
  {
    EarlierSightingShows(row.sightings, Sighting(row.effect.value.startedAt, Pending), row.effect.value.startedAt);
    hide LastAtOrBefore;
  }

  lemma UnreadableDispatch(t: Tables, p: string)
    requires p in t.payments && !DispatchQuoteReadable(t.payments[p])
    ensures !Readable(t, p)
  {
    hide RecordsReadable, QuoteTermsReadable, DispatchQuoteReadable;
  }

  /** And it never recovers: a later observation cannot change what was seen at dispatch. */
  lemma BrokenReadingIsForever(trace: seq<Tables>, calls: seq<Call>, i: nat, j: nat, p: string)
    requires IsRun(trace, calls) && i <= j < |trace|
    requires p in trace[i].payments && !Readable(trace[i], p)
    requires trace[i].payments[p].effect.Some? && trace[i].payments[p].effect.value.kind.Melt?
    requires trace[i].payments[p].sightings != []
    requires trace[i].payments[p].effect.value.startedAt <= Last(trace[i].payments[p].sightings).observedAt
    ensures p in trace[j].payments && !Readable(trace[j], p)
  {
    hide *;
    RunIsSound(trace, calls, i);
    RunGrows(trace, calls, i, j);
    PaymentsStay(trace[i], trace[j], p);
    ReadableIffDispatchQuoteUnpaid(trace[i], p);
    ReadableIffDispatchQuoteUnpaid(trace[j], p);
    RowInInvoice(trace[j], p);
    DispatchQuoteIsSettled(trace[j].invoices[trace[j].payments[p].reservation.invoiceId], trace[i].payments[p], trace[j].payments[p]);
  }

  lemma DispatchQuoteIsSettled(ir: InvoiceRow, a: PaymentRow, b: PaymentRow)
    requires RowSound(ir, b) && Grows(a, b) && a.effect.Some? && a.effect.value.kind.Melt?
    requires a.sightings != [] && a.effect.value.startedAt <= Last(a.sightings).observedAt
    ensures DispatchQuoteReadable(a) <==> DispatchQuoteReadable(b)
  {
    var more := b.sightings[|a.sightings|..];
    assert b.sightings == a.sightings + more;
    assert HasQuotedEvidence(b);
    forall k | 0 <= k < |more| ensures a.effect.value.startedAt < more[k].observedAt {
      SightingsIncrease(b.attempt.value.startedAt, b.outcome.value.terms.expiry, b.outcome.value.recordedAt,
                        b.sightings, |a.sightings| - 1, |a.sightings| + k);
    }
    LateSightingsInvisible(a.sightings, more, a.effect.value.startedAt);
  }

  // ------------------------------------------------------------------ replay

  lemma {:induction false} FindsStoredEvent(events: seq<Event>, k: nat)
    requires DistinctIds(events) && k < |events|
    ensures FindEvent(events, events[k].eventId) == Some(events[k])
  {
    if k < |events| - 1 { FindsStoredEvent(events[..|events| - 1], k); }
  }

  lemma StoredDraftReplays(t: Tables, p: string, draft: Event, effect: Option<Effect>)
    requires Sound(t) && p in t.payments && Readable(t, p)
    requires exists k :: 0 <= k < |t.payments[p].events| && t.payments[p].events[k] == draft
    requires effect.Some? ==> t.payments[p].effect == effect
    ensures Replay(t, p, draft, effect) == Some(Replayed(t)) && EventKey(draft.eventId) in t.keys
  {
    var k :| 0 <= k < |t.payments[p].events| && t.payments[p].events[k] == draft;
    RowHasKeys(t, p);
    assert DistinctIds(t.payments[p].events) by { RowIsSound(t, p); }
    FindsStoredEvent(t.payments[p].events, k);
    hide Sound, Readable, DistinctIds;
  }

  lemma LastEventStays(a: PaymentRow, b: PaymentRow, draft: Event)
    requires Grows(a, b) && a.events != [] && Last(a.events) == draft
    ensures exists k :: 0 <= k < |b.events| && b.events[k] == draft
  {
    assert b.events[|a.events| - 1] == draft;
  }

  /** The draft a lifecycle write stores. */
  function DraftOf(c: Call): Event
    requires IsLifecycleWrite(c)
  {
    match c
    case CallStartEffect(_, id, e) => StartDraft(id, e)
    case CallRecordPending(_, e, id, evidenceAt, at) => PendingDraft(e, id, evidenceAt, at)
    case CallRequireAttention(_, e, id, reason, evidenceAt, at) => AttentionDraft(e, id, reason, evidenceAt, at)
    case CallAccept(_, input) => AcceptDraft(input)
    case CallRelease(_, input) => ReleaseDraft(input)
  }

  /** What a fresh lifecycle write leaves behind, and everything its replay looks at. */
  ghost predicate WroteFresh(t: Tables, c: Call) {
    IsLifecycleWrite(c) && Apply(t, c).Ok? && !Apply(t, c).value.replayed
  }

  lemma FreshWriteStoresDraft(t: Tables, c: Call)
    requires Sound(t) && WroteFresh(t, c)
    ensures c.p in t.payments && c.p in After(t, c).payments
    ensures After(t, c).payments[c.p].events == t.payments[c.p].events + [DraftOf(c)]
    ensures EventKey(DraftOf(c).eventId) !in t.keys
    ensures c.CallStartEffect? ==> After(t, c).payments[c.p].effect == Some(c.effect)
  {
    hide Sound, StartEffect, Accept, Release, RecordEvent;
    match c
    case CallStartEffect(p, id, e) =>
      StartNeedsPayment(t, p, id, e);
      StartFacts(t.payments[p], id, e);
      if EventKey(id) in t.keys { StartReplayShape(t, p, id, e); } else { StartConditions(t, p, id, e); StartShape(t, p, id, e); }
    case CallRecordPending(p, e, id, evidenceAt, at) => FreshRecordStoresDraft(t, p, DraftOf(c));
    case CallRequireAttention(p, e, id, reason, evidenceAt, at) => FreshRecordStoresDraft(t, p, DraftOf(c));
    case CallAccept(p, input) =>
      AcceptShape(t, p, input);
      if EventKey(input.eventId) !in t.keys { AcceptFacts(t, p, input, Accept(t, p, input).value.tables); }
      hide AcceptWrites;
    case CallRelease(p, input) =>
      ReleaseIsTransition(t, p, input);
      FreshTransitionStoresDraft(t, p, DraftOf(c));
  }

  lemma FreshTransitionStoresDraft(t: Tables, p: string, draft: Event)
    requires p in t.payments && PersistTransition(t, p, draft).Ok? && !PersistTransition(t, p, draft).value.replayed
    ensures var u := PersistTransition(t, p, draft).value.tables;
            && p in u.payments && u.payments[p].events == t.payments[p].events + [draft]
            && u.payments == t.payments[p := AppendEvent(t.payments[p], draft)]
            && u.invoices == t.invoices
    ensures EventKey(draft.eventId) !in t.keys
  {
    if EventKey(draft.eventId) in t.keys { TransitionReplayShape(t, p, draft); } else { TransitionShape(t, p, draft); }
    hide PersistTransition;
    AppendFacts(t.payments[p], draft);
  }

  lemma FreshRecordStoresDraft(t: Tables, p: string, draft: Event)
    requires RecordEvent(t, p, draft).Ok? && !RecordEvent(t, p, draft).value.replayed
    ensures p in t.payments && EventKey(draft.eventId) !in t.keys
    ensures var u := RecordEvent(t, p, draft).value.tables;
            p in u.payments && u.payments[p].events == t.payments[p].events + [draft]
  {
    hide PersistTransition;
    FreshTransitionStoresDraft(t, p, draft);
  }

  /** Everything a replayed acceptance re-reads is still there. */
  lemma AcceptReplays(t: Tables, v: Tables, p: string, input: AcceptInput)
    requires Sound(t) && Accept(t, p, input).Ok? && !Accept(t, p, input).value.replayed
    requires Sound(v) && TablesGrow(Accept(t, p, input).value.tables, v) && p in v.payments && Readable(v, p)
    ensures Accept(v, p, input) == Replayed(v)
  {
    hide *;
    AcceptShape(t, p, input);
    var u := Accept(t, p, input).value.tables;
    FreshAcceptIsNew(t, p, input);
    AcceptFacts(t, p, input, u);
    AcceptedJournalIsSound(t, p, input, u);
    PaymentsStay(u, v, p);
    JournalStays(u, v, p);
    AcceptEvidenceStays(t, p, input, u, v);
    AcceptDraftStored(t, p, input, u, v);
    StoredDraftReplays(v, p, AcceptDraft(input), None);
    AccountingStillMatches(t, p, input, u, v);
    AcceptReplayComputes(v, p, input);
  }

  lemma FreshAcceptIsNew(t: Tables, p: string, input: AcceptInput)
    requires Sound(t) && Accept(t, p, input).Ok? && !Accept(t, p, input).value.replayed
    ensures EventKey(input.eventId) !in t.keys
  {
    hide Sound, Accept;
    AcceptShape(t, p, input);
  }

  lemma JournalStays(u: Tables, v: Tables, p: string)
    requires TablesGrow(u, v) && p in u.journals
    ensures p in v.journals && v.journals[p] == u.journals[p]
  {
  }

  lemma AcceptDraftStored(t: Tables, p: string, input: AcceptInput, u: Tables, v: Tables)
    requires AcceptWrites(t, p, input, u) && p in u.payments && p in v.payments && Grows(u.payments[p], v.payments[p])
    ensures exists k :: 0 <= k < |v.payments[p].events| && v.payments[p].events[k] == AcceptDraft(input)
  {
    AcceptFacts(t, p, input, u);
    hide AcceptWrites, Grows;
    assert Last(u.payments[p].events) == AcceptDraft(input);
    LastEventStays(u.payments[p], v.payments[p], AcceptDraft(input));
  }

  lemma AcceptEvidenceStays(t: Tables, p: string, input: AcceptInput, u: Tables, v: Tables)
    requires AcceptWrites(t, p, input, u) && p in u.payments && p in v.payments && Grows(u.payments[p], v.payments[p])
    requires Readable(v, p)
    ensures EffectEvidence(v, p, input.effectId, MeltPaid, input.evidenceAt, input.recordedAt).None?
    ensures SnapshotSupports(v.payments[p], input.proofStateAt, ProofHistory.Spent)
  {
    AcceptFacts(t, p, input, u);
    var row, later := t.payments[p], v.payments[p];
    assert later.effect == row.effect && row.sightings <= later.sightings && later.reservation == row.reservation;
    var k :| 0 <= k < |row.sightings| && row.sightings[k] == Sighting(input.evidenceAt, Paid);
    assert later.sightings[k] == Sighting(input.evidenceAt, Paid);
    hide Readable, Ledger.AcceptInvoicePayment, Grows;
  }

  lemma AccountingStillMatches(t: Tables, p: string, input: AcceptInput, u: Tables, v: Tables)
    requires AcceptWrites(t, p, input, u) && p in u.payments && p in v.payments && Grows(u.payments[p], v.payments[p])
    requires p in u.journals && p in v.journals && v.journals[p] == u.journals[p] && Sound(t)
    ensures AccountingMatches(v.journals[p], v.payments[p], p, input)
  {
    var row := t.payments[p];
    AcceptedEchoesInput(t.invoices[row.reservation.invoiceId].invoice, PaymentInputOf(row, p, input));
    AcceptFacts(t, p, input, u);
    assert t.invoices[row.reservation.invoiceId].invoice.id == row.reservation.invoiceId;
    assert v.payments[p].reservation == row.reservation;
    hide Ledger.AcceptInvoicePayment, Sound, Grows, FollowsEffect, SnapshotSupports;
  }

  lemma AcceptReplayComputes(v: Tables, p: string, input: AcceptInput)
    requires p in v.payments && p in v.journals
    requires EffectEvidence(v, p, input.effectId, MeltPaid, input.evidenceAt, input.recordedAt).None?
    requires SnapshotSupports(v.payments[p], input.proofStateAt, ProofHistory.Spent)
    requires Replay(v, p, AcceptDraft(input), None) == Some(Replayed(v))
    requires AccountingMatches(v.journals[p], v.payments[p], p, input)
    ensures Accept(v, p, input) == Replayed(v)
  {
    hide Replay, EffectEvidence, SnapshotSupports, AccountingMatches, PersistAccepted, PersistTransition;
  }

  /** And everything a replayed release re-reads: its row is terminal and frozen. */
  lemma ReleaseReplays(t: Tables, v: Tables, p: string, input: ReleaseInput)
    requires Sound(t) && Release(t, p, input).Ok? && !Release(t, p, input).value.replayed
    requires Sound(v) && TablesGrow(Release(t, p, input).value.tables, v) && p in v.payments && Readable(v, p)
    ensures Release(v, p, input) == Replayed(v)
  {
    hide *;
    ReleaseIsTransition(t, p, input);
    var u := Release(t, p, input).value.tables;
    FreshTransitionStoresDraft(t, p, ReleaseDraft(input));
    PaymentsStay(u, v, p);
    assert Last(u.payments[p].events) == ReleaseDraft(input) by { LastOfAppend(t.payments[p].events, ReleaseDraft(input)); }
    LastEventStays(u.payments[p], v.payments[p], ReleaseDraft(input));
    StoredDraftReplays(v, p, ReleaseDraft(input), None);
    ReplayedTransition(v, p, ReleaseDraft(input));
    ReleasedRowFrozen(u.payments[p], v.payments[p], input);
    AppendFacts(t.payments[p], ReleaseDraft(input));
    SameInvoiceTerms(u, v, p);
    if input.ReleaseAfterFailure? {
      RowInInvoice(t, p);
      ReleaseChecked(t, p, input);
      ReleaseEvidenceStays(t, v, p, input);
    }
    ReleaseReplayComputes(v, p, input);
  }

  /** The evidence checks that a committed after-failure release has passed. */
  lemma ReleaseChecked(t: Tables, p: string, input: ReleaseInput)
    requires input.ReleaseAfterFailure? && p in t.payments && Release(t, p, input).Ok?
    requires t.payments[p].reservation.invoiceId in t.invoices
    ensures input.evidence in {SwapRejected, MeltUnpaidAfterExpiry}
    ensures EffectEvidence(t, p, input.effectId, input.evidence, input.evidenceAt, input.recordedAt).None?
    ensures SnapshotSupports(t.payments[p], input.proofStateAt, ProofHistory.Unspent)
    ensures HasInvoice(t, t.payments[p]) && t.payments[p].effect.Some?
    ensures input.evidence.MeltUnpaidAfterExpiry? ==>
              LatestReleaseEvidence(t, t.payments[p], input.evidenceAt, input.proofStateAt).None?
  {
    hide Readable, PersistTransition, LatestReleaseEvidence, SnapshotSupports;
  }

  lemma ReleaseEvidenceStays(t: Tables, v: Tables, p: string, input: ReleaseInput)
    requires input.ReleaseAfterFailure? && p in t.payments && p in v.payments && Readable(v, p)
    requires t.payments[p].reservation.invoiceId in t.invoices && t.payments[p].effect.Some?
    requires EffectEvidence(t, p, input.effectId, input.evidence, input.evidenceAt, input.recordedAt).None?
    requires SnapshotSupports(t.payments[p], input.proofStateAt, ProofHistory.Unspent)
    requires HasInvoice(t, t.payments[p])
    requires input.evidence.MeltUnpaidAfterExpiry? ==>
               LatestReleaseEvidence(t, t.payments[p], input.evidenceAt, input.proofStateAt).None?
    requires v.payments[p] == AppendEvent(t.payments[p], ReleaseDraft(input))
    requires t.payments[p].reservation.invoiceId in v.invoices
    requires InvoiceGrows(t.invoices[t.payments[p].reservation.invoiceId], v.invoices[t.payments[p].reservation.invoiceId])
    ensures EffectEvidence(v, p, input.effectId, input.evidence, input.evidenceAt, input.recordedAt).None?
    ensures SnapshotSupports(v.payments[p], input.proofStateAt, ProofHistory.Unspent)
    ensures HasInvoice(v, v.payments[p]) && v.payments[p].effect.Some?
    ensures input.evidence.MeltUnpaidAfterExpiry? ==>
              LatestReleaseEvidence(v, v.payments[p], input.evidenceAt, input.proofStateAt).None?
  {
    hide Readable, Uniform, IsLatestSnapshot, SightingsReadable;
    assert HasInvoice(v, v.payments[p]);
  }

  lemma ReleaseReplayComputes(v: Tables, p: string, input: ReleaseInput)
    requires p in v.payments && PersistTransition(v, p, ReleaseDraft(input)) == Replayed(v)
    requires input.ReleaseAfterFailure? ==>
               && input.evidence in {SwapRejected, MeltUnpaidAfterExpiry}
               && EffectEvidence(v, p, input.effectId, input.evidence, input.evidenceAt, input.recordedAt).None?
               && SnapshotSupports(v.payments[p], input.proofStateAt, ProofHistory.Unspent)
               && HasInvoice(v, v.payments[p]) && v.payments[p].effect.Some?
               && (input.evidence.MeltUnpaidAfterExpiry? ==>
                     LatestReleaseEvidence(v, v.payments[p], input.evidenceAt, input.proofStateAt).None?)
    ensures Release(v, p, input) == Replayed(v)
  {
    hide PersistTransition, EffectEvidence, SnapshotSupports, LatestReleaseEvidence, Replayed, ReleaseDraft;
  }

  lemma LastOfAppend(events: seq<Event>, draft: Event)
    ensures Last(events + [draft]) == draft
  {
  }

  lemma ReplayedTransition(v: Tables, p: string, draft: Event)
    requires p in v.payments && Replay(v, p, draft, None) == Some(Replayed(v))
    ensures PersistTransition(v, p, draft) == Replayed(v)
  {
    hide Replay, Readable;
  }

  lemma ReleasedRowFrozen(a: PaymentRow, b: PaymentRow, input: ReleaseInput)
    requires Grows(a, b) && a.events != [] && Last(a.events) == ReleaseDraft(input)
    ensures b == a
  {
  }

  lemma SameInvoiceTerms(u: Tables, v: Tables, p: string)
    requires TablesGrow(u, v) && p in u.payments && p in v.payments && v.payments[p].reservation == u.payments[p].reservation
    ensures var i := u.payments[p].reservation.invoiceId;
            i in u.invoices ==> i in v.invoices && InvoiceGrows(u.invoices[i], v.invoices[i])
  {
  }

  lemma StartReplays(t: Tables, v: Tables, p: string, eventId: string, effect: Effect)
    requires Sound(t) && StartEffect(t, p, eventId, effect).Ok? && !StartEffect(t, p, eventId, effect).value.replayed
    requires Sound(v) && TablesGrow(StartEffect(t, p, eventId, effect).value.tables, v) && p in v.payments && Readable(v, p)
    ensures StartEffect(v, p, eventId, effect) == Replayed(v)
  {
    hide *;
    StartNeedsPayment(t, p, eventId, effect);
    FreshStartIsNew(t, p, eventId, effect);
    StartConditions(t, p, eventId, effect);
    StartShape(t, p, eventId, effect);
    StartFacts(t.payments[p], eventId, effect);
    var u := StartEffect(t, p, eventId, effect).value.tables;
    PaymentsStay(u, v, p);
    LastOfAppend(t.payments[p].events, StartDraft(eventId, effect));
    LastEventStays(u.payments[p], v.payments[p], StartDraft(eventId, effect));
    EffectStays(u.payments[p], v.payments[p]);
    StoredDraftReplays(v, p, StartDraft(eventId, effect), Some(effect));
    StartReplayComputes(v, p, eventId, effect);
  }

  lemma FreshStartIsNew(t: Tables, p: string, eventId: string, effect: Effect)
    requires StartEffect(t, p, eventId, effect).Ok? && !StartEffect(t, p, eventId, effect).value.replayed
    ensures EventKey(eventId) !in t.keys
  {
    hide StartEffect;
    if EventKey(eventId) in t.keys { StartReplayShape(t, p, eventId, effect); }
  }

  lemma EffectStays(a: PaymentRow, b: PaymentRow)
    requires Grows(a, b) && a.effect.Some?
    ensures b.effect == a.effect
  {
  }

  lemma StartReplayComputes(v: Tables, p: string, eventId: string, effect: Effect)
    requires p in v.payments && Replay(v, p, StartDraft(eventId, effect), Some(effect)) == Some(Replayed(v))
    requires effect.kind.Melt? ==> effect.startedAt < effect.kind.referenceExpiresAt
    ensures StartEffect(v, p, eventId, effect) == Replayed(v)
  {
    hide Replay, Readable, DispatchEvidence, EffectKeys;
  }

  lemma RecordReplays(t: Tables, v: Tables, p: string, draft: Event)
    requires Sound(t) && RecordEvent(t, p, draft).Ok? && !RecordEvent(t, p, draft).value.replayed
    requires Sound(v) && TablesGrow(RecordEvent(t, p, draft).value.tables, v) && p in v.payments && Readable(v, p)
    ensures RecordEvent(v, p, draft) == Replayed(v)
  {
    hide *;
    FreshRecordStoresDraft(t, p, draft);
    var u := RecordEvent(t, p, draft).value.tables;
    PaymentsStay(u, v, p);
    LastOfAppend(t.payments[p].events, draft);
    LastEventStays(u.payments[p], v.payments[p], draft);
    StoredDraftReplays(v, p, draft, None);
    ReplayedTransition(v, p, draft);
    RecordReplayComputes(v, p, draft);
  }

  lemma RecordReplayComputes(v: Tables, p: string, draft: Event)
    requires p in v.payments && PersistTransition(v, p, draft) == Replayed(v)
    ensures RecordEvent(v, p, draft) == Replayed(v)
  {
    hide PersistTransition, Replayed;
  }

  /**
   * Any lifecycle write that committed, repeated with the same input at any later time while the payment is
   * readable, reports a replay and changes nothing.
   */
  lemma CommittedWriteReplays(trace: seq<Tables>, calls: seq<Call>, i: nat, j: nat)
    requires IsRun(trace, calls) && i < j < |trace|
    requires WroteFresh(trace[i], calls[i])
    requires calls[i].p in trace[j].payments ==> Readable(trace[j], calls[i].p)
    ensures Apply(trace[j], calls[i]) == Replayed(trace[j])
  {
    var t, v, c := trace[i], trace[j], calls[i];
    RunIsSound(trace, calls, i);
    RunGrows(trace, calls, i + 1, j);
    assert trace[i + 1] == After(t, c);
    FreshWriteStoresDraft(t, c);
    PaymentsStay(trace[i + 1], v, c.p);
    hide IsRun, Sound, TablesGrow, Readable, StartEffect, Accept, Release, RecordEvent, Grows, Replayed;
    match c
    case CallStartEffect(p, id, e) => StartReplays(t, v, p, id, e);
    case CallRecordPending(p, e, id, evidenceAt, at) => RecordReplays(t, v, p, PendingDraft(e, id, evidenceAt, at));
    case CallRequireAttention(p, e, id, reason, evidenceAt, at) =>
      RecordReplays(t, v, p, AttentionDraft(e, id, reason, evidenceAt, at));
    case CallAccept(p, input) => AcceptReplays(t, v, p, input);
    case CallRelease(p, input) => ReleaseReplays(t, v, p, input);
  }
}
