/**
 * What every committed write keeps true of one payment's rows, and how those
 * rows may grow. Nothing here looks at other payments.
 */
module MeltRows {
  import opened Outcomes
  import opened MeltRecords
  import opened ProofHistory
  import opened MeltStore

  // ------------------------------------------------------------ invariants

  predicate ReservationSound(ir: InvoiceRow, row: PaymentRow) {
    && row.reservation.proofs != [] && DistinctYs(row.reservation.proofs)
    && RouteIn(ir, row.reservation).Some?
    && ir.invoice.createdAt <= row.reservation.reservedAt < ir.invoice.expiresAt
    && ir.unit == row.reservation.unit
  }

  predicate QuotesSound(ir: InvoiceRow, row: PaymentRow) {
    && RouteIn(ir, row.reservation).Some?
    && (row.attempt.None? ==> row.outcome.None?)
    && AttemptReadable(row)
    && (row.outcome.None? || row.outcome.value.Ambiguous? ==> row.sightings == [])
    && (row.attempt.Some? ==>
          && AttemptMatches(row, ir.invoice)
          && row.attempt.value.request.destination == RouteIn(ir, row.reservation).value.destination
          && RouteIn(ir, row.reservation).value.mode.ImmediateConversion?)
    && (row.attempt.Some? && row.outcome.Some? && row.outcome.value.Quoted? ==>
          MatchesAttempt(row, row.attempt.value, row.outcome.value.terms))
  }

  ghost predicate SnapshotsSound(row: PaymentRow) {
    && !HasRegression(row.snapshots)
    && forall at :: at in row.snapshots ==>
         |row.snapshots[at]| == |row.reservation.proofs| && row.reservation.reservedAt <= at
  }

  predicate EffectSound(ir: InvoiceRow, row: PaymentRow) {
    && EffectReadable(row, ir.invoice)
    && (row.effect.Some? && row.effect.value.kind.Melt? ==>
          && HasQuotedEvidence(row) && RouteIn(ir, row.reservation).Some?
          && TermsMatchEffect(row, ir.invoice, RouteIn(ir, row.reservation).value, row.effect.value))
  }

  predicate DistinctIds(events: seq<Event>) {
    forall i, k :: 0 <= i < k < |events| ==> events[i].eventId != events[k].eventId
  }

  predicate EventsSound(row: PaymentRow) {
    && EventsReadable(row)
    && DistinctIds(row.events)
    && (Terminal(row) ==> row.custodyAt.None?)
  }

  predicate NeverPaid(row: PaymentRow) {
    forall i :: 0 <= i < |row.sightings| ==> !row.sightings[i].state.Paid?
  }

  ghost predicate NeverSpent(row: PaymentRow) {
    forall at, i :: at in row.snapshots && 0 <= i < |row.snapshots[at]| ==> row.snapshots[at][i] != Spent
  }

  /** Terminal events rest on the evidence they name. */
  ghost predicate OutcomeSound(row: PaymentRow, e: Event) {
    && (e.evidence == Some(MeltUnpaidAfterExpiry) ==> NeverPaid(row) && NeverSpent(row))
    && (e.state.Consumed? ==>
          && e.evidence == Some(MeltPaid) && e.evidenceAt.Some?
          && Sighting(e.evidenceAt.value, Paid) in row.sightings)
  }

  ghost predicate RowSound(ir: InvoiceRow, row: PaymentRow) {
    && ReservationSound(ir, row) && QuotesSound(ir, row) && SnapshotsSound(row)
    && EffectSound(ir, row) && EventsSound(row)
    && forall k :: 0 <= k < |row.events| ==> OutcomeSound(row, row.events[k])
  }

  // ---------------------------------------------------------------- growth

  predicate IsPrefix<T(==)>(a: seq<T>, b: seq<T>) {
    a <= b
  }

  /** Rows are append-only, and nothing but the bookkeeping of other tables touches a terminal row. */
  ghost predicate Grows(a: PaymentRow, b: PaymentRow) {
    && b.reservation == a.reservation
    && (a.attempt.Some? ==> b.attempt == a.attempt)
    && (a.outcome.Some? ==> b.outcome == a.outcome)
    && IsPrefix(a.sightings, b.sightings)
    && (forall at :: at in a.snapshots ==> at in b.snapshots && b.snapshots[at] == a.snapshots[at])
    && (a.effect.Some? ==> b.effect == a.effect)
    && IsPrefix(a.events, b.events)
    && (Terminal(a) ==> b == a)
  }

  lemma GrowsIsTransitive(a: PaymentRow, b: PaymentRow, c: PaymentRow)
    requires Grows(a, b) && Grows(b, c)
    ensures Grows(a, c)
  {
  }

  // -------------------------------------------------------- event histories

  lemma StepAllowed(row: PaymentRow, k: nat)
    requires EventsReadable(row) && 0 < k < |row.events|
    ensures TransitionAllowed(row.events[k - 1].state, row.events[k].state)
  {
    assert StepReadable(row, k);
    assert Last(row.events[..k]) == row.events[k - 1];
  }

  /** A terminal event can only be the last one. */
  lemma TerminalIsLast(row: PaymentRow, k: nat)
    requires EventsReadable(row) && k < |row.events|
    requires row.events[k].state.Consumed? || row.events[k].state.Released?
    ensures k == |row.events| - 1
  {
    if k + 1 < |row.events| { StepAllowed(row, k + 1); }
  }

  /** Without an effect there is at most the pre-dispatch release. */
  lemma NoEffectMeansReservedOrReleased(row: PaymentRow)
    requires EventsReadable(row) && row.effect.None?
    ensures row.events == [] || (|row.events| == 1 && Current(row).Released?)
  {
    if |row.events| > 0 { TerminalIsLast(row, 0); }
  }

  /** With an effect the row has left the reserved state for good. */
  lemma EffectMeansStarted(row: PaymentRow)
    requires EventsReadable(row) && row.effect.Some?
    ensures Active(row) || Terminal(row)
  {
    assert StepReadable(row, |row.events| - 1);
  }

  lemma StepStaysReadable(a: PaymentRow, b: PaymentRow, k: nat)
    requires k < |a.events| && StepReadable(a, k)
    requires b.reservation == a.reservation && b.effect == a.effect && a.events <= b.events
    requires forall at :: at in a.snapshots ==> at in b.snapshots && b.snapshots[at] == a.snapshots[at]
    ensures StepReadable(b, k)
  {
    assert b.events[..k] == a.events[..k];
  }

  lemma EventsStayReadable(a: PaymentRow, b: PaymentRow)
    requires EventsReadable(a)
    requires b.reservation == a.reservation && b.effect == a.effect && b.events == a.events
    requires forall at :: at in a.snapshots ==> at in b.snapshots && b.snapshots[at] == a.snapshots[at]
    ensures EventsReadable(b)
  {
    forall k | 0 <= k < |b.events| ensures StepReadable(b, k) {
      assert StepReadable(a, k);
      StepStaysReadable(a, b, k);
    }
  }

  function AppendEvent(row: PaymentRow, draft: Event): PaymentRow {
    row.(events := row.events + [draft],
         custodyAt := if draft.state.Consumed? || draft.state.Released? then None else row.custodyAt)
  }

  /** Appending a readable, allowed, later event keeps the history readable. */
  lemma AppendKeepsEvents(row: PaymentRow, draft: Event)
    requires EventsSound(row)
    requires EventReadable(row, draft)
    requires TransitionAllowed(Current(row), draft.state)
    requires row.events != [] ==> Last(row.events).recordedAt <= draft.recordedAt
    requires row.events == [] ==> if row.effect.None? then draft.state.Released? else draft.state.DispatchStarted?
    requires forall k :: 0 <= k < |row.events| ==> row.events[k].eventId != draft.eventId
    ensures EventsSound(AppendEvent(row, draft))
  {
    var after := AppendEvent(row, draft);
    forall k | 0 <= k < |after.events| ensures StepReadable(after, k) {
      if k < |row.events| {
        assert StepReadable(row, k);
        StepStaysReadable(row, after, k);
      } else {
        assert after.events[..k] == row.events;
      }
    }
    if row.effect.None? { NoEffectMeansReservedOrReleased(row); }
    assert row.effect.None? ==> draft.state.Released?;
  }

  // ------------------------------------------------------------- row writes

  lemma NewRowIsSound(ir: InvoiceRow, r: Reservation)
    requires r.proofs != [] && DistinctYs(r.proofs) && RouteIn(ir, r).Some? && ir.unit == r.unit
    requires ir.invoice.createdAt <= r.reservedAt < ir.invoice.expiresAt
    ensures RowSound(ir, PaymentRow(r, None, None, None, [], map[], None, []))
  {
  }

  /** Custody and the quote attempt are written before any event. */
  lemma EarlyWriteKeepsRow(ir: InvoiceRow, row: PaymentRow, after: PaymentRow)
    requires RowSound(ir, row) && row.events == [] && row.effect.None?
    requires after == row.(custodyAt := after.custodyAt, attempt := after.attempt, outcome := after.outcome,
                           sightings := after.sightings)
    requires row.attempt.Some? ==> after.attempt == row.attempt
    requires row.outcome.Some? ==> after.outcome == row.outcome
    requires row.sightings <= after.sightings
    requires QuotesSound(ir, after)
    ensures RowSound(ir, after) && Grows(row, after)
  {
  }

  lemma FirstSightingReadable(startedAt: nat, expiry: nat, at: nat)
    requires startedAt <= at < expiry && expiry - startedAt <= MAX_QUOTE_TTL
    ensures SightingsReadable(startedAt, expiry, at, [Sighting(at, Unpaid)])
  {
  }

  /** A later observation extends the quote history unless the row is terminal. */
  lemma SightingKeepsRow(ir: InvoiceRow, row: PaymentRow, seen: Sighting)
    requires RowSound(ir, row) && HasQuotedEvidence(row) && !Terminal(row)
    requires Last(row.sightings).observedAt < seen.observedAt
    requires Last(row.sightings).state.Paid? ==> seen.state.Paid?
    ensures RowSound(ir, row.(sightings := row.sightings + [seen]))
    ensures Grows(row, row.(sightings := row.sightings + [seen]))
  {
    var after := row.(sightings := row.sightings + [seen]);
    EventsStayReadable(row, after);
    assert HasQuotedEvidence(after) by {
      forall k | 0 < k < |after.sightings|
        ensures after.sightings[k - 1].observedAt < after.sightings[k].observedAt
                && (after.sightings[k - 1].state.Paid? ==> after.sightings[k].state.Paid?)
      {
        if k == |row.sightings| { assert after.sightings[k - 1] == Last(row.sightings); }
      }
    }
    NonTerminalHasNoOutcome(row);
    hide SnapshotsSound, SightingsReadable;
  }

  lemma NonTerminalHasNoOutcome(row: PaymentRow)
    requires EventsReadable(row) && !Terminal(row)
    ensures forall k :: 0 <= k < |row.events| ==>
              !row.events[k].state.Consumed? && !row.events[k].state.Released?
              && row.events[k].evidence != Some(MeltUnpaidAfterExpiry)
  {
    forall k | 0 <= k < |row.events|
      ensures !row.events[k].state.Consumed? && !row.events[k].state.Released?
              && row.events[k].evidence != Some(MeltUnpaidAfterExpiry)
    {
      assert StepReadable(row, k);
      if row.events[k].state.Consumed? || row.events[k].state.Released? { TerminalIsLast(row, k); }
    }
  }

  lemma SnapshotKeepsRow(ir: InvoiceRow, row: PaymentRow, o: Observation)
    requires RowSound(ir, row) && !Terminal(row) && o.observedAt !in row.snapshots
    requires |o.states| == |row.reservation.proofs| && row.reservation.reservedAt <= o.observedAt
    requires !HasRegression(row.snapshots[o.observedAt := o.states])
    ensures RowSound(ir, row.(snapshots := row.snapshots[o.observedAt := o.states]))
    ensures Grows(row, row.(snapshots := row.snapshots[o.observedAt := o.states]))
  {
    hide HasRegression;
    var after := row.(snapshots := row.snapshots[o.observedAt := o.states]);
    EventsStayReadable(row, after);
    NonTerminalHasNoOutcome(row);
  }

  /** The dispatch event and its effect arrive together on a reserved row. */
  lemma StartKeepsRow(ir: InvoiceRow, row: PaymentRow, eventId: string, effect: Effect)
    requires RowSound(ir, row) && Current(row).Reserved? && row.effect.None?
    requires effect.kind.Melt? ==> effect.startedAt < effect.kind.referenceExpiresAt
    requires ir.invoice.createdAt <= effect.startedAt < ir.invoice.expiresAt
    requires row.reservation.reservedAt <= effect.startedAt
    requires effect.kind.Melt? ==>
               HasQuotedEvidence(row)
               && TermsMatchEffect(row, ir.invoice, RouteIn(ir, row.reservation).value, effect)
    ensures var after := AppendEvent(row.(effect := Some(effect)), StartDraft(eventId, effect));
            RowSound(ir, after) && Grows(row, after)
  {
    NoEffectMeansReservedOrReleased(row);
    var draft := StartDraft(eventId, effect);
    var after := AppendEvent(row.(effect := Some(effect)), draft);
    assert after.events == [draft];
    assert EventReadable(after, draft);
    assert after.events[..0] == [];
    assert StepReadable(after, 0);
    hide SnapshotsSound, SightingsReadable;
  }

  /** A transition that follows the effect, with its terminal evidence, keeps the row. */
  lemma TransitionKeepsRow(ir: InvoiceRow, row: PaymentRow, draft: Event)
    requires RowSound(ir, row) && FollowsEffect(row, draft)
    requires forall k :: 0 <= k < |row.events| ==> row.events[k].eventId != draft.eventId
    requires PublicShape(draft) && draft.state in {PendingOutcome, NeedsAttention, Consumed, Released}
    requires draft.snapshotAt.Some? ==>
               SnapshotSupports(row, draft.snapshotAt.value, if draft.state.Consumed? then Spent else Unspent)
    requires draft.state.Released? ==> draft.evidence != Some(PreDispatch)
    requires OutcomeSound(row, draft)
    ensures RowSound(ir, AppendEvent(row, draft)) && Grows(row, AppendEvent(row, draft))
  {
    var after := AppendEvent(row, draft);
    assert EventReadable(row, draft) by {
      assert StepReadable(row, |row.events| - 1);
    }
    AppendKeepsEvents(row, draft);
    forall k | 0 <= k < |after.events| ensures OutcomeSound(after, after.events[k]) {
      if k < |row.events| { assert OutcomeSound(row, row.events[k]); }
    }
    hide EventReadable, StepReadable, SnapshotsSound, SightingsReadable, OutcomeSound, EventsReadable;
  }

  lemma PreDispatchReleaseKeepsRow(ir: InvoiceRow, row: PaymentRow, eventId: string, recordedAt: nat)
    requires RowSound(ir, row) && Current(row).Reserved? && row.effect.None?
    requires row.reservation.reservedAt <= recordedAt
    ensures var after := AppendEvent(row, ReleaseDraft(ReleasePreDispatch(eventId, recordedAt)));
            RowSound(ir, after) && Grows(row, after)
  {
    NoEffectMeansReservedOrReleased(row);
    AppendKeepsEvents(row, ReleaseDraft(ReleasePreDispatch(eventId, recordedAt)));
    hide EventReadable, StepReadable, SnapshotsSound, SightingsReadable, EventsReadable;
  }

  /** Payment of the invoice changes nothing a row depends on. */
  lemma RowIgnoresPayment(ir: InvoiceRow, paidAt: Option<nat>, row: PaymentRow)
    requires RowSound(ir, row)
    ensures RowSound(ir.(invoice := ir.invoice.(paidAt := paidAt)), row)
  {
    hide EventsSound, SnapshotsSound, OutcomeSound;
  }

  // ------------------------------------------------- evidence at the terminus

  /** The evidence demanded of an after-expiry release excludes any PAID or SPENT in the past. */
  lemma ReleaseEvidenceExcludesPayment(row: PaymentRow, evidenceAt: nat, proofStateAt: nat)
    requires HasQuotedEvidence(row) && SnapshotsSound(row)
    requires Last(row.sightings) == Sighting(evidenceAt, Unpaid)
    requires IsLatestSnapshot(row.snapshots, proofStateAt) && SnapshotSupports(row, proofStateAt, Unspent)
    ensures NeverPaid(row) && NeverSpent(row)
  {
    LatestUnpaidMeansNeverPaid(row.attempt.value.startedAt, row.outcome.value.terms.expiry,
                               row.outcome.value.recordedAt, row.sightings);
    LatestUnspentMeansNeverSpent(row.snapshots, proofStateAt, |row.reservation.proofs|);
  }
}
