/**
 * Release after a failed effect: exactly when it commits, and what a committed
 * release says about payment, for both kinds of failure evidence.
 */
module MeltReleases {
  import opened Outcomes
  import opened MeltRecords
  import opened MeltStore
  import opened MeltRows
  import opened MeltInvariants
  import opened MeltCalls
  import opened MeltTheorems
  import ProofHistory

  // ----------------------------------------------------- when a release commits

  /** The guards of an after-failure release, without the load that ends its transaction. */
  ghost predicate ReleaseAllowed(t: Tables, p: string, input: ReleaseInput)
    requires p in t.payments && input.ReleaseAfterFailure?
  {
    var row := t.payments[p];
    && Readable(t, p) && Active(row) && |row.events| < MAX_EVENTS
    && row.effect.Some? && row.effect.value.effectId == input.effectId
    && row.effect.value.startedAt <= input.evidenceAt <= input.proofStateAt <= input.recordedAt
    && Last(row.events).recordedAt <= input.recordedAt
    && SnapshotSupports(row, input.proofStateAt, ProofHistory.Unspent)
    && match input.evidence
       case SwapRejected => row.effect.value.kind.Swap?
       case MeltUnpaidAfterExpiry =>
         && row.effect.value.kind.Melt? && row.effect.value.kind.referenceExpiresAt <= input.evidenceAt
         && HasInvoice(t, row) && LatestReleaseEvidence(t, row, input.evidenceAt, input.proofStateAt).None?
       case _ => false
  }

  /** The rows a release writes: its event, and no claims any more. */
  function ReleaseWritten(t: Tables, p: string, draft: Event): Tables
    requires p in t.payments
  {
    WithoutClaims(WithEvent(t, p, draft), p)
  }

  lemma ReleaseWriteShape(t: Tables, p: string, draft: Event)
    requires p in t.payments && draft.state.Released?
    ensures var u := ReleaseWritten(t, p, draft);
            && u.payments == t.payments[p := AppendEvent(t.payments[p], draft)]
            && u.invoices == t.invoices && u.journals == t.journals
            && u.keys == t.keys[EventKey(draft.eventId) := p]
            && u.proofClaims == t.proofClaims - ProofClaimsOf(t, p)
            && u.invoiceClaims == t.invoiceClaims - InvoiceClaimsOf(t, p)
  {
    assert ProofClaimsOf(WithEvent(t, p, draft), p) == ProofClaimsOf(t, p);
    assert InvoiceClaimsOf(WithEvent(t, p, draft), p) == InvoiceClaimsOf(t, p);
  }

  /** What allowed guards make of the event. */
  lemma AllowedEvent(t: Tables, p: string, input: ReleaseInput)
    requires p in t.payments && input.ReleaseAfterFailure? && ReleaseAllowed(t, p, input)
    ensures var row, draft := t.payments[p], ReleaseDraft(input);
            && FollowsEffect(row, draft) && PublicShape(draft) && draft.eventId == input.eventId
            && draft.state.Released? && draft.evidence == Some(input.evidence) && draft.evidence != Some(PreDispatch)
            && draft.snapshotAt == Some(input.proofStateAt) && |row.events| < MAX_EVENTS && !Terminal(row)
            && SnapshotSupports(row, input.proofStateAt, ProofHistory.Unspent) && Readable(t, p)
            && (input.evidence.MeltUnpaidAfterExpiry? ==>
                  && HasQuotedEvidence(row) && Last(row.sightings) == Sighting(input.evidenceAt, Unpaid)
                  && IsLatestSnapshot(row.snapshots, input.proofStateAt))
  {
    hide Readable, HasQuotedEvidence, AttemptMatches, IsLatestSnapshot, Uniform;
  }

  lemma AllowedOutcomeIsSound(ir: InvoiceRow, t: Tables, p: string, input: ReleaseInput)
    requires p in t.payments && input.ReleaseAfterFailure? && ReleaseAllowed(t, p, input) && RowSound(ir, t.payments[p])
    ensures OutcomeSound(t.payments[p], ReleaseDraft(input))
  {
    AllowedEvent(t, p, input);
    RowParts(ir, t.payments[p]);
    hide ReleaseAllowed, RowSound, SnapshotsSound, HasQuotedEvidence, NeverPaid, NeverSpent, SnapshotSupports, IsLatestSnapshot,
         FollowsEffect, Readable;
    if input.evidence.MeltUnpaidAfterExpiry? {
      ReleaseEvidenceExcludesPayment(t.payments[p], input.evidenceAt, input.proofStateAt);
    }
  }

  lemma AllowedRowIsSound(t: Tables, p: string, input: ReleaseInput)
    requires Sound(t) && p in t.payments && input.ReleaseAfterFailure? && ReleaseAllowed(t, p, input)
    requires EventKey(input.eventId) !in t.keys
    ensures HasInvoice(t, t.payments[p])
    ensures var after := AppendEvent(t.payments[p], ReleaseDraft(input));
            RowSound(t.invoices[t.payments[p].reservation.invoiceId], after) && Grows(t.payments[p], after)
  {
    hide *;
    RowInInvoice(t, p);
    RowIsSound(t, p);
    AllowedEvent(t, p, input);
    var ir := t.invoices[t.payments[p].reservation.invoiceId];
    AllowedOutcomeIsSound(ir, t, p, input);
    UnusedIdIsNew(t, p, input.eventId);
    TransitionKeepsRow(ir, t.payments[p], ReleaseDraft(input));
  }

  lemma ReleaseWriteIsSound(t: Tables, p: string, input: ReleaseInput)
    requires Sound(t) && p in t.payments && input.ReleaseAfterFailure? && ReleaseAllowed(t, p, input)
    requires EventKey(input.eventId) !in t.keys
    ensures Sound(ReleaseWritten(t, p, ReleaseDraft(input)))
  {
    hide *;
    var draft := ReleaseDraft(input);
    var u := ReleaseWritten(t, p, draft);
    AllowedRowIsSound(t, p, input);
    AllowedEvent(t, p, input);
    ReleaseWriteShape(t, p, draft);
    AppendFacts(t.payments[p], draft);
    NotTerminal(t.payments[p]);
    SoundParts(t);
    EventWriteKeeps(t, u, p, draft);
    ReleasedClaims(t, u, p);
    NotConsumedHasNoJournal(t, p);
    RowWriteAccounts(t, u, p);
    SoundFromParts(u);
  }

  /** An allowed release always reads back. */
  lemma ReleaseWriteReads(t: Tables, p: string, input: ReleaseInput)
    requires Sound(t) && p in t.payments && input.ReleaseAfterFailure? && ReleaseAllowed(t, p, input)
    requires EventKey(input.eventId) !in t.keys
    ensures p in ReleaseWritten(t, p, ReleaseDraft(input)).payments && Readable(ReleaseWritten(t, p, ReleaseDraft(input)), p)
  {
    hide *;
    var draft := ReleaseDraft(input);
    ReleaseWriteIsSound(t, p, input);
    AllowedEvent(t, p, input);
    ReleaseWriteShape(t, p, draft);
    ReadableIffDispatchQuoteUnpaid(t, p);
    AppendKeepsDispatchQuote(t.payments[p], draft);
    ReadableIffDispatchQuoteUnpaid(ReleaseWritten(t, p, draft), p);
  }

  lemma AllowedReleaseCommits(t: Tables, p: string, input: ReleaseInput)
    requires p in t.payments && input.ReleaseAfterFailure? && ReleaseAllowed(t, p, input)
    requires EventKey(input.eventId) !in t.keys
    requires p in ReleaseWritten(t, p, ReleaseDraft(input)).payments && Readable(ReleaseWritten(t, p, ReleaseDraft(input)), p)
    ensures Release(t, p, input).Ok? && Release(t, p, input) == Fresh(ReleaseWritten(t, p, ReleaseDraft(input)))
  {
    AllowedEvent(t, p, input);
    AllowedEvidence(t, p, input);
    AllowedTransition(t, p, ReleaseDraft(input));
    hide Readable, PersistTransition, EffectEvidence, SnapshotSupports, LatestReleaseEvidence, FollowsEffect, WithEvent, WithoutClaims;
  }

  lemma AllowedEvidence(t: Tables, p: string, input: ReleaseInput)
    requires p in t.payments && input.ReleaseAfterFailure? && ReleaseAllowed(t, p, input)
    ensures EffectEvidence(t, p, input.effectId, input.evidence, input.evidenceAt, input.recordedAt).None?
  {
    hide Readable, SnapshotSupports, LatestReleaseEvidence;
  }

  lemma AllowedTransition(t: Tables, p: string, draft: Event)
    requires p in t.payments && Readable(t, p) && FollowsEffect(t.payments[p], draft) && |t.payments[p].events| < MAX_EVENTS
    requires draft.state.Released? && draft.evidence != Some(PreDispatch) && EventKey(draft.eventId) !in t.keys
    requires p in ReleaseWritten(t, p, draft).payments && Readable(ReleaseWritten(t, p, draft), p)
    ensures PersistTransition(t, p, draft) == Fresh(ReleaseWritten(t, p, draft))
  {
    hide Readable, FollowsEffect;
  }

  lemma CommittedReleaseWasAllowed(t: Tables, p: string, input: ReleaseInput)
    requires p in t.payments && input.ReleaseAfterFailure? && Release(t, p, input).Ok? && EventKey(input.eventId) !in t.keys
    ensures ReleaseAllowed(t, p, input)
  {
    ReleaseShape(t, p, input);
    CommittedEvidence(t, p, input);
    TransitionShape(t, p, ReleaseDraft(input));
    hide Release, PersistTransition, EffectEvidence, Readable, SnapshotSupports, LatestReleaseEvidence, IsLatestSnapshot,
         HasQuotedEvidence;
  }

  lemma CommittedEvidence(t: Tables, p: string, input: ReleaseInput)
    requires p in t.payments && input.ReleaseAfterFailure? && Release(t, p, input).Ok?
    ensures input.evidence in {SwapRejected, MeltUnpaidAfterExpiry}
    ensures Readable(t, p) && HasInvoice(t, t.payments[p])
    ensures var row := t.payments[p];
            && row.effect.Some? && row.effect.value.effectId == input.effectId
            && EvidenceMatchesEffect(Some(input.evidence), row.effect.value.kind)
            && EvidenceTimeMatches(Some(input.evidence), input.evidenceAt, row.effect.value.kind)
            && row.effect.value.startedAt <= input.evidenceAt <= input.recordedAt
            && (input.evidence.MeltUnpaidAfterExpiry? ==>
                  LatestReleaseEvidence(t, row, input.evidenceAt, input.proofStateAt).None?)
  {
    assert Readable(t, p) ==> HasInvoice(t, t.payments[p]);
    hide Readable, PersistTransition, SnapshotSupports, LatestReleaseEvidence;
  }

  /** An after-failure release commits exactly when its guards hold: the write it makes always reads back. */
  lemma ReleasesExactlyWhenAllowed(t: Tables, p: string, input: ReleaseInput)
    requires Sound(t) && p in t.payments && input.ReleaseAfterFailure? && EventKey(input.eventId) !in t.keys
    ensures Release(t, p, input).Ok? <==> ReleaseAllowed(t, p, input)
    ensures Release(t, p, input).Ok? ==> Release(t, p, input) == Fresh(ReleaseWritten(t, p, ReleaseDraft(input)))
  {
    hide *;
    if Release(t, p, input).Ok? {
      CommittedReleaseWasAllowed(t, p, input);
    }
    if ReleaseAllowed(t, p, input) {
      ReleaseWriteReads(t, p, input);
      AllowedReleaseCommits(t, p, input);
    }
  }

  // ------------------------------------------------------ after a rejected swap

  /**
   * All a release after a rejected swap depends on: state, effect, times, and the one cited snapshot. No other
   * snapshot is looked at.
   */
  predicate SwapReleaseAllowed(t: Tables, p: string, input: ReleaseInput)
    requires p in t.payments && input.ReleaseAfterFailure?
  {
    var row := t.payments[p];
    && Readable(t, p) && Active(row) && |row.events| < MAX_EVENTS
    && row.effect.Some? && row.effect.value.kind.Swap? && row.effect.value.effectId == input.effectId
    && row.effect.value.startedAt <= input.evidenceAt <= input.proofStateAt <= input.recordedAt
    && Last(row.events).recordedAt <= input.recordedAt
    && SnapshotSupports(row, input.proofStateAt, ProofHistory.Unspent)
  }

  lemma SwapReleasesExactlyWhenAllowed(t: Tables, p: string, input: ReleaseInput)
    requires Sound(t) && p in t.payments && EventKey(input.eventId) !in t.keys
    requires input.ReleaseAfterFailure? && input.evidence.SwapRejected?
    ensures Release(t, p, input).Ok? <==> SwapReleaseAllowed(t, p, input)
  {
    ReleasesExactlyWhenAllowed(t, p, input);
    hide Sound, Release, Readable, SnapshotSupports;
  }

  /** The latest snapshot decides whether any proof was ever seen SPENT. */
  lemma NeverSpentIffLatestIsNot(row: PaymentRow, latest: nat)
    requires SnapshotsSound(row) && IsLatestSnapshot(row.snapshots, latest)
    ensures NeverSpent(row) <==> ProofHistory.Spent !in row.snapshots[latest]
  {
    var h := row.snapshots;
    if ProofHistory.Spent in h[latest] {
      var i :| 0 <= i < |h[latest]| && h[latest][i] == ProofHistory.Spent;
      assert !NeverSpent(row);
    }
    if !NeverSpent(row) {
      var at, i :| at in h && 0 <= i < |h[at]| && h[at][i] == ProofHistory.Spent;
      if h[latest][i] != ProofHistory.Spent { assert ProofHistory.Contradicts(h[at], h[latest]); }
    }
  }

  /**
   * A payment released by a committed swap release never saw a SPENT proof if and only if its latest snapshot
   * before the call showed none. Citing the latest snapshot is one way for a caller to make sure.
   */
  lemma SwapReleaseIsUnspentIffLatestIs(trace: seq<Tables>, calls: seq<Call>, i: nat, j: nat, p: string, input: ReleaseInput,
                                        latest: nat)
    requires IsRun(trace, calls) && i < |calls| && i < j < |trace| && calls[i] == CallRelease(p, input)
    requires input.ReleaseAfterFailure? && input.evidence.SwapRejected? && Release(trace[i], p, input).Ok?
    requires p in trace[i].payments && IsLatestSnapshot(trace[i].payments[p].snapshots, latest)
    ensures p in trace[j].payments && Current(trace[j].payments[p]).Released?
    ensures NeverSpent(trace[j].payments[p]) <==> ProofHistory.Spent !in trace[i].payments[p].snapshots[latest]
    ensures input.proofStateAt == latest ==> NeverSpent(trace[j].payments[p])
  {
    var t, u, v := trace[i], trace[i + 1], trace[j];
    assert u == Release(t, p, input).value.tables;
    hide *;
    RunIsSound(trace, calls, i);
    RunGrows(trace, calls, i + 1, j);
    ReleasedRow(t, p, input);
    PaymentsStay(u, v, p);
    TerminalNeverChanges(u.payments[p], v.payments[p]);
    SnapshotsOf(t, p);
    NeverSpentIffLatestIsNot(t.payments[p], latest);
    SameSnapshots(t.payments[p], u.payments[p]);
    ReleaseShape(t, p, input);
    SupportedIsUnspent(t.payments[p], input.proofStateAt);
  }

  lemma SnapshotsOf(t: Tables, p: string)
    requires Sound(t) && p in t.payments
    ensures SnapshotsSound(t.payments[p])
  {
    RowIsSound(t, p);
    hide Sound;
  }

  lemma SameSnapshots(a: PaymentRow, b: PaymentRow)
    requires a.snapshots == b.snapshots
    ensures NeverSpent(a) <==> NeverSpent(b)
  {
  }

  lemma SupportedIsUnspent(row: PaymentRow, at: nat)
    requires SnapshotSupports(row, at, ProofHistory.Unspent)
    ensures at in row.snapshots && ProofHistory.Spent !in row.snapshots[at]
  {
  }

  /** The row after a committed release, fresh or replayed. */
  lemma ReleasedRow(t: Tables, p: string, input: ReleaseInput)
    requires Sound(t) && p in t.payments && input.ReleaseAfterFailure? && Release(t, p, input).Ok?
    ensures var u := Release(t, p, input).value.tables;
            p in u.payments && Current(u.payments[p]).Released? && u.payments[p].snapshots == t.payments[p].snapshots
  {
    ReleaseShape(t, p, input);
    ReleaseIsTransition(t, p, input);
    hide Release, Sound, SnapshotSupports, HasQuotedEvidence, IsLatestSnapshot;
    var draft := ReleaseDraft(input);
    if EventKey(draft.eventId) in t.keys {
      TransitionReplayShape(t, p, draft);
      StoredReleaseIsLast(t, p, draft);
    } else {
      TransitionShape(t, p, draft);
      AppendFacts(t.payments[p], draft);
    }
    hide PersistTransition;
  }

  /** A release event found on replay is the payment's last event. */
  lemma StoredReleaseIsLast(t: Tables, p: string, draft: Event)
    requires Sound(t) && p in t.payments && PersistTransition(t, p, draft).Ok? && EventKey(draft.eventId) in t.keys
    requires draft.state.Released?
    ensures Current(t.payments[p]).Released?
  {
    assert FindEvent(t.payments[p].events, draft.eventId) == Some(draft) by { hide Readable, Sound; }
    hide PersistTransition;
    RowIsSound(t, p);
    hide Sound;
    FoundEventIsStored(t.payments[p].events, draft.eventId);
    var k :| 0 <= k < |t.payments[p].events| && t.payments[p].events[k] == draft;
    TerminalIsLast(t.payments[p], k);
  }

  // -------------------------------------------------------- terminal evidence

  /** What a terminal melt rests on: never paid and never spent, or paid and all spent. */
  lemma TerminalEvidence(t: Tables, p: string)
    requires Sound(t) && p in t.payments
    ensures var row := t.payments[p];
            && (Current(row).Consumed? ==> ShowsPayment(row))
            && (Current(row).Released? && row.effect.Some? && row.effect.value.kind.Melt? ==>
                  ReleasedAfterExpiry(row) && NeverPaid(row) && NeverSpent(row))
  {
    RowIsSound(t, p);
    var row := t.payments[p];
    if Terminal(row) {
      LastEventFacts(t.invoices[row.reservation.invoiceId], row);
    }
  }

  /** A PAID observation and an all-SPENT snapshot are stored, and the last event names both. */
  predicate ShowsPayment(row: PaymentRow) {
    && row.events != [] && Last(row.events).evidenceAt.Some? && Last(row.events).snapshotAt.Some?
    && Sighting(Last(row.events).evidenceAt.value, Paid) in row.sightings
    && SnapshotSupports(row, Last(row.events).snapshotAt.value, ProofHistory.Spent)
  }

  lemma LastEventFacts(ir: InvoiceRow, row: PaymentRow)
    requires RowSound(ir, row) && Terminal(row)
    ensures Current(row).Consumed? ==> ShowsPayment(row)
    ensures Current(row).Released? && row.effect.Some? && row.effect.value.kind.Melt? ==>
              ReleasedAfterExpiry(row) && NeverPaid(row) && NeverSpent(row)
  {
    var last := |row.events| - 1;
    assert OutcomeSound(row, row.events[last]);
    assert StepReadable(row, last);
    hide RowSound, NeverPaid, NeverSpent, SnapshotSupports;
  }

  /** A consumed payment rests on a stored PAID observation and a stored all-SPENT snapshot, and never changes. */
  lemma ConsumedIsPaidForever(trace: seq<Tables>, calls: seq<Call>, i: nat, j: nat, p: string)
    requires IsRun(trace, calls) && i <= j < |trace| && p in trace[i].payments && Current(trace[i].payments[p]).Consumed?
    ensures p in trace[j].payments && trace[j].payments[p] == trace[i].payments[p]
    ensures ShowsPayment(trace[j].payments[p])
  {
    hide *;
    RunIsSound(trace, calls, i);
    RunGrows(trace, calls, i, j);
    TerminalEvidence(trace[i], p);
    PaymentsStay(trace[i], trace[j], p);
    TerminalNeverChanges(trace[i].payments[p], trace[j].payments[p]);
  }
}
