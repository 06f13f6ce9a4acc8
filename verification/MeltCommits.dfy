/**
 * When the calls before and beside the lifecycle commit: reservation, custody,
 * quote attempt, quote outcome, observations. On sound tables each commits
 * exactly under the conditions given here and writes exactly the named rows; no
 * read-back refuses what was just written.
 */
module MeltCommits {
  import opened Outcomes
  import opened MeltRecords
  import opened MeltStore
  import opened MeltRows
  import opened MeltInvariants
  import opened MeltCalls
  import ProofHistory
  import Ledger

  // ------------------------------------------------------------ observations

  /** The stored terms as last observed. */
  function StoredQuote(row: PaymentRow): Quote
    requires HasQuotedEvidence(row)
  {
    Quote(row.outcome.value.terms, Last(row.sightings).observedAt, Last(row.sightings).state)
  }

  /** A quote answer can be stored: it is already there, or it is newer, does not take PAID back, and the payment lives. */
  predicate QuoteFits(row: PaymentRow, quote: Quote) {
    && HasQuotedEvidence(row) && quote.terms == row.outcome.value.terms
    && var last := Last(row.sightings);
       || Sighting(quote.observedAt, quote.state) in row.sightings
       || (!Terminal(row) && last.observedAt < quote.observedAt && (last.state.Paid? ==> quote.state.Paid?))
  }

  function WithSighting(row: PaymentRow, quote: Quote): PaymentRow {
    var seen := Sighting(quote.observedAt, quote.state);
    if seen in row.sightings then row else row.(sightings := row.sightings + [seen])
  }

  lemma NewerIsUnsighted(row: PaymentRow, at: nat)
    requires HasQuotedEvidence(row)
    ensures row.sightings != [] && (Last(row.sightings).observedAt < at ==> !SightedAt(row.sightings, at))
  {
    if Last(row.sightings).observedAt < at && SightedAt(row.sightings, at) {
      var k :| 0 <= k < |row.sightings| && row.sightings[k].observedAt == at;
      if k < |row.sightings| - 1 {
        SightingsIncrease(row.attempt.value.startedAt, row.outcome.value.terms.expiry, row.outcome.value.recordedAt,
                          row.sightings, k, |row.sightings| - 1);
      }
    }
  }

  lemma SightedInSeq(sightings: seq<Sighting>, s: Sighting)
    requires s in sightings
    ensures SightedAt(sightings, s.observedAt)
  {
    var k :| 0 <= k < |sightings| && sightings[k] == s;
    assert sightings[k].observedAt == s.observedAt;
  }

  /** The sound row of an observation call: quoted evidence is readable and carries the attempt's terms. */
  lemma QuotedRow(t: Tables, p: string)
    requires Sound(t) && p in t.payments
    ensures var row := t.payments[p];
            && HasInvoice(t, row) && AttemptReadable(row)
            && (row.outcome.Some? ==> row.attempt.Some?)
            && (row.outcome.Some? && row.outcome.value.Quoted? ==>
                  HasQuotedEvidence(row) && MatchesAttempt(row, row.attempt.value, row.outcome.value.terms))
  {
    RowIsSound(t, p);
    hide Sound, SnapshotsSound, EventsSound, EffectSound, MatchesAttempt, AttemptMatches, HasQuotedEvidence;
  }

  lemma ExtendedEvidence(row: PaymentRow, seen: Sighting)
    requires HasQuotedEvidence(row) && row.sightings != [] && Last(row.sightings).observedAt < seen.observedAt
    requires Last(row.sightings).state.Paid? ==> seen.state.Paid?
    ensures HasQuotedEvidence(row.(sightings := row.sightings + [seen]))
  {
    var after := row.(sightings := row.sightings + [seen]);
    forall k | 0 < k < |after.sightings|
      ensures after.sightings[k - 1].observedAt < after.sightings[k].observedAt
              && (after.sightings[k - 1].state.Paid? ==> after.sightings[k].state.Paid?)
    {
      if k == |row.sightings| { assert after.sightings[k - 1] == Last(row.sightings); }
    }
  }

  /** An answer about the quote is stored exactly when it fits what is already there. */
  lemma ObservesExactlyWhen(t: Tables, p: string, attemptId: string, quote: Quote)
    requires Sound(t) && p in t.payments
    ensures var row, r := t.payments[p], ObserveQuote(t, p, attemptId, quote);
            && (r.Ok? <==> row.attempt.Some? && row.attempt.value.attemptId == attemptId && QuoteFits(row, quote))
            && (r.Ok? ==>
                  && r.value.tables == WithRow(t, p, WithSighting(row, quote))
                  && (r.value.replayed <==> Sighting(quote.observedAt, quote.state) in row.sightings))
  {
    hide Sound, HasQuotedEvidence, MatchesAttempt, SightedAt;
    var row := t.payments[p];
    var seen := Sighting(quote.observedAt, quote.state);
    QuotedRow(t, p);
    assert WithRow(t, p, row) == t;
    if row.outcome.Some? && row.outcome.value.Quoted? {
      NewerIsUnsighted(row, quote.observedAt);
      if seen in row.sightings { SightedInSeq(row.sightings, seen); }
      if Last(row.sightings).observedAt < seen.observedAt && (Last(row.sightings).state.Paid? ==> seen.state.Paid?) {
        ExtendedEvidence(row, seen);
      }
    } else {
      assert !HasQuotedEvidence(row) by { NotQuoted(row); }
    }
  }

  lemma NotQuoted(row: PaymentRow)
    requires row.outcome.None? || row.outcome.value.Ambiguous?
    ensures !HasQuotedEvidence(row)
  {
  }

  /** A proof-state report can be stored: it is the one already there, or the payment lives and no SPENT is taken back. */
  ghost predicate ProofsFit(row: PaymentRow, o: ProofHistory.Observation) {
    if o.observedAt in row.snapshots then row.snapshots[o.observedAt] == o.states
    else !Terminal(row) && !ProofHistory.HasRegression(row.snapshots[o.observedAt := o.states])
  }

  lemma HistoryIsSound(t: Tables, p: string)
    requires Sound(t) && p in t.payments
    ensures !ProofHistory.HasRegression(t.payments[p].snapshots)
  {
    hide Sound, ProofHistory.HasRegression;
    RowIsSound(t, p);
  }

  lemma ObservesProofsExactlyWhen(t: Tables, p: string, report: ProofReport)
    requires Sound(t) && p in t.payments
    ensures var row, r, o := t.payments[p], ObserveProofs(t, p, report), report.observation;
            && (r.Ok? <==>
                  && report.operatorId == row.reservation.operatorId && report.mintUrl == row.reservation.mintUrl
                  && report.unit == row.reservation.unit && report.ys == Ys(row.reservation.proofs)
                  && |o.states| == |row.reservation.proofs| && row.reservation.reservedAt <= o.observedAt
                  && ProofsFit(row, o))
            && (r.Ok? ==>
                  && r.value.tables == WithRow(t, p, row.(snapshots := row.snapshots[o.observedAt := o.states]))
                  && (r.value.replayed <==> o.observedAt in row.snapshots))
  {
    hide Sound, ProofHistory.HasRegression, ProofHistory.HasPriorSpent, ProofHistory.HasLaterNonSpent;
    var row, o := t.payments[p], report.observation;
    HistoryIsSound(t, p);
    if o.observedAt !in row.snapshots { ProofHistory.GuardIsExact(row.snapshots, o); }
    assert o.observedAt in row.snapshots && row.snapshots[o.observedAt] == o.states ==>
             row.(snapshots := row.snapshots[o.observedAt := o.states]) == row;
  }

  // ------------------------------------------------------------ reservation

  /** What any reservation must look like before the tables are asked. */
  predicate Reservable(r: Reservation) {
    && 0 < |r.proofs| <= MAX_PAYMENT_PROOFS && DistinctYs(r.proofs)
    && Gross(r.proofs) <= Ledger.MAX_SAFE_INTEGER && r.keysetObservedAt <= r.reservedAt
  }

  function Sorted(r: Reservation): Reservation { r.(proofs := SortByY(r.proofs)) }

  /** A new reservation is open to an unpaid invoice of its unit, in its window, on an accepted route, over free proofs. */
  predicate ReservationOpen(t: Tables, r: Reservation, keysetsObserved: bool) {
    && r.invoiceId in t.invoices && keysetsObserved
    && var ir := t.invoices[r.invoiceId];
       && ir.invoice.paidAt.None? && ir.unit == r.unit
       && ir.invoice.createdAt <= r.reservedAt < ir.invoice.expiresAt
       && (r.operatorId, r.mintUrl) in ir.routes
       && (forall i :: 0 <= i < |r.proofs| ==> (r.mintUrl, r.proofs[i].y) !in t.proofClaims)
  }

  /** A reservation commits exactly when it is open, or repeats the one stored and not yet released. */
  lemma ReservesExactlyWhen(t: Tables, p: string, requested: Reservation, keysetsObserved: bool)
    requires Sound(t)
    ensures var r, done := Sorted(requested), Reserve(t, p, requested, keysetsObserved);
            && (done.Ok? <==>
                  && Reservable(requested)
                  && if p in t.payments then t.payments[p].reservation == r && !Current(t.payments[p]).Released?
                     else ReservationOpen(t, r, keysetsObserved))
            && (done.Ok? && p in t.payments ==> done == Ok(Committed(t, true)))
            && (done.Ok? && p !in t.payments ==>
                  && !done.value.replayed && done.value.tables.payments == t.payments[p := BlankRow(r)]
                  && done.value.tables.proofClaims == t.proofClaims + (map k | k in ClaimKeys(BlankRow(r)) :: p)
                  && done.value.tables == t.(payments := done.value.tables.payments, proofClaims := done.value.tables.proofClaims))
  {
    var r := Sorted(requested);
    hide Sound, SortByY, DistinctYs, Gross, ProofClaimsOf, ClaimKeys;
    if p in t.payments {
      HeldClaims(t, p);
    }
    assert (exists k :: k in ClaimKeys(BlankRow(r)) && k in t.proofClaims)
           <==> (exists i :: 0 <= i < |r.proofs| && (r.mintUrl, r.proofs[i].y) in t.proofClaims) by { ClaimedProofs(t, r); }
  }

  lemma ClaimedProofs(t: Tables, r: Reservation)
    ensures (exists k :: k in ClaimKeys(BlankRow(r)) && k in t.proofClaims)
            <==> (exists i :: 0 <= i < |r.proofs| && (r.mintUrl, r.proofs[i].y) in t.proofClaims)
  {
    if i :| 0 <= i < |r.proofs| && (r.mintUrl, r.proofs[i].y) in t.proofClaims {
      assert (r.mintUrl, r.proofs[i].y) in ClaimKeys(BlankRow(r));
    }
  }

  /** An unreleased payment holds one claim per proof. */
  lemma HeldClaims(t: Tables, p: string)
    requires Sound(t) && p in t.payments
    ensures t.payments[p].reservation.proofs != [] && HasInvoice(t, t.payments[p])
    ensures !Current(t.payments[p]).Released? ==> |ProofClaimsOf(t, p)| == |t.payments[p].reservation.proofs|
  {
    ProjectionHolds(t, p);
    RowIsSound(t, p);
    hide Sound;
  }

  /** Custody is stored exactly once, in the invoice window, before anything else happens to the payment. */
  lemma StoresCustodyExactlyWhen(t: Tables, p: string, createdAt: nat, proofCount: nat)
    requires Sound(t) && p in t.payments
    ensures HasInvoice(t, t.payments[p])
    ensures var row, invoice, done := t.payments[p], InvoiceOf(t, t.payments[p]), StoreCustody(t, p, createdAt, proofCount);
            && (done.Ok? <==>
                  && row.custodyAt.None? && row.effect.None? && row.events == [] && invoice.paidAt.None?
                  && row.reservation.reservedAt <= createdAt && invoice.createdAt <= createdAt < invoice.expiresAt
                  && proofCount == |row.reservation.proofs|)
            && (done.Ok? ==> done == Ok(Committed(WithRow(t, p, row.(custodyAt := Some(createdAt))), false)))
  {
    hide Sound, ProofClaimsOf;
    HeldClaims(t, p);
  }

  // ---------------------------------------------------------- quote attempts

  /** A first quote attempt needs custody, the stellar unit, an immediate route to its destination and the open window. */
  predicate AttemptOpen(t: Tables, row: PaymentRow, attempt: Attempt)
    requires HasInvoice(t, row) && RouteOf(t, row).Some?
  {
    var invoice, route := InvoiceOf(t, row), RouteOf(t, row).value;
    && row.attempt.None? && AttemptKey(attempt.attemptId) !in t.keys
    && row.custodyAt.Some? && row.effect.None? && row.events == [] && row.reservation.unit == STELLAR_UNIT
    && route.mode.ImmediateConversion? && route.destination == attempt.request.destination
    && invoice.amount == attempt.request.amount && invoice.paidAt.None?
    && row.reservation.reservedAt <= attempt.startedAt && row.custodyAt.value <= attempt.startedAt
    && invoice.createdAt <= attempt.startedAt < invoice.expiresAt
  }

  /** An attempt begins exactly when it is open, or repeats the one stored: a payment has one attempt. */
  lemma BeginsExactlyWhen(t: Tables, p: string, attempt: Attempt)
    requires Sound(t) && p in t.payments
    ensures HasInvoice(t, t.payments[p]) && RouteOf(t, t.payments[p]).Some?
    ensures var row, done := t.payments[p], BeginQuote(t, p, attempt);
            && (done.Ok? <==> row.attempt == Some(attempt) || AttemptOpen(t, row, attempt))
            && (done.Ok? && row.attempt.Some? ==> done == Ok(Committed(t, true)))
            && (done.Ok? && row.attempt.None? ==>
                  done == Ok(Committed(WithRow(t, p, row.(attempt := Some(attempt))).(
                                         keys := t.keys[AttemptKey(attempt.attemptId) := p]), false)))
  {
    hide Sound, HasQuotedEvidence, ProofClaimsOf;
    HeldClaims(t, p);
    AttemptFacts(t, p);
    if t.payments[p].attempt.Some? { AttemptKeyHeld(t, p); }
  }

  lemma AttemptFacts(t: Tables, p: string)
    requires Sound(t) && p in t.payments
    ensures var row := t.payments[p];
            && HasInvoice(t, row) && RouteOf(t, row).Some? && AttemptReadable(row)
            && t.invoices[row.reservation.invoiceId].unit == row.reservation.unit
            && (row.attempt.None? ==> row.outcome.None?) && (row.outcome.None? ==> row.sightings == [])
  {
    RowIsSound(t, p);
    hide Sound, SnapshotsSound, EventsSound, EffectSound, MatchesAttempt, AttemptMatches, HasQuotedEvidence, OutcomeSound;
  }

  /** An outcome can still be written: none is, custody stands and nothing was dispatched or released. */
  predicate OutcomeOpen(row: PaymentRow) {
    row.outcome.None? && row.custodyAt.Some? && row.effect.None? && row.events == []
  }

  lemma RecordsAmbiguityExactlyWhen(t: Tables, p: string, attemptId: string, reason: string, at: nat)
    requires Sound(t) && p in t.payments
    ensures var row, done := t.payments[p], RecordAmbiguous(t, p, attemptId, reason, at);
            && (done.Ok? <==>
                  && row.attempt.Some? && row.attempt.value.attemptId == attemptId && row.attempt.value.startedAt <= at
                  && (row.outcome == Some(Ambiguous(reason, at)) || OutcomeOpen(row)))
            && (done.Ok? ==>
                  && done.value.tables == WithRow(t, p, row.(outcome := Some(Ambiguous(reason, at))))
                  && (done.value.replayed <==> row.outcome.Some?))
  {
    hide Sound, HasQuotedEvidence;
    var row := t.payments[p];
    AttemptFacts(t, p);
    if row.outcome == Some(Ambiguous(reason, at)) { assert row.(outcome := Some(Ambiguous(reason, at))) == row && WithRow(t, p, row) == t; }
  }

  /** A quote answer is an UNPAID quote on the attempt's terms that expires within the time allowed. */
  predicate IsOffer(row: PaymentRow, quote: Quote)
    requires row.attempt.Some?
  {
    var attempt := row.attempt.value;
    && quote.terms.mintUrl == row.reservation.mintUrl && quote.terms.amount == attempt.request.amount
    && quote.terms.request == attempt.request.text && quote.state.Unpaid?
    && attempt.startedAt <= quote.observedAt < quote.terms.expiry <= attempt.startedAt + MAX_QUOTE_TTL
  }

  /** A quote is recorded exactly when it is an offer for the attempt and either repeats the stored one or is the first outcome. */
  lemma RecordsQuoteExactlyWhen(t: Tables, p: string, attemptId: string, quote: Quote)
    requires Sound(t) && p in t.payments
    ensures var row, done := t.payments[p], RecordQuote(t, p, attemptId, quote);
            var recorded, key := Quoted(quote.terms, quote.observedAt), QuoteKey(quote.terms.mintUrl, quote.terms.quoteId);
            && (done.Ok? <==>
                  && row.attempt.Some? && row.attempt.value.attemptId == attemptId && IsOffer(row, quote)
                  && (row.outcome == Some(recorded) || (OutcomeOpen(row) && key !in t.keys)))
            && (done.Ok? && row.outcome.Some? ==> done == Ok(Committed(t, true)))
            && (done.Ok? && row.outcome.None? ==>
                  done == Ok(Committed(WithRow(t, p, row.(outcome := Some(recorded), sightings := [Sighting(quote.observedAt, Unpaid)])).(
                                         keys := t.keys[key := p]), false)))
  {
    hide Sound, SightingsReadable;
    var row := t.payments[p];
    AttemptFacts(t, p);
    if row.outcome == Some(Quoted(quote.terms, quote.observedAt)) { assert HasQuotedEvidence(row); FirstSightingStored(row); }
    if row.attempt.Some? && IsOffer(row, quote) {
      FirstSightingReadable(row.attempt.value.startedAt, quote.terms.expiry, quote.observedAt);
    }
    assert row.sightings == [] ==> row.sightings + [Sighting(quote.observedAt, quote.state)] == [Sighting(quote.observedAt, quote.state)];
  }

  lemma FirstSightingStored(row: PaymentRow)
    requires HasQuotedEvidence(row)
    ensures Sighting(row.outcome.value.recordedAt, Unpaid) in row.sightings
  {
  }
}
