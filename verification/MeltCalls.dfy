/**
 * Every repository call keeps the tables sound and only grows them.
 */
module MeltCalls {
  import opened Outcomes
  import opened MeltRecords
  import opened MeltStore
  import opened MeltRows
  import opened MeltInvariants
  import ProofHistory
  import Ledger

  ghost predicate Preserves(t: Tables, u: Tables) {
    Sound(u) && TablesGrow(t, u)
  }

  // ------------------------------------------------------ sorting of proofs

  lemma {:induction false} SortedElements(proofs: seq<Proof>)
    ensures multiset(SortByY(proofs)) == multiset(proofs)
  {
    if proofs != [] {
      SortedElements(proofs[1..]);
      InsertElements(proofs[0], SortByY(proofs[1..]));
      assert proofs == [proofs[0]] + proofs[1..];
    }
  }

  lemma {:induction false} InsertElements(proof: Proof, sorted: seq<Proof>)
    ensures multiset(Insert(proof, sorted)) == multiset([proof] + sorted)
  {
    if sorted != [] && sorted[0].y < proof.y {
      InsertElements(proof, sorted[1..]);
      assert sorted == [sorted[0]] + sorted[1..];
    }
  }

  predicate Increasing(proofs: seq<Proof>) {
    forall i, k :: 0 <= i < k < |proofs| ==> proofs[i].y <= proofs[k].y
  }

  lemma {:induction false} InsertIncreasing(proof: Proof, sorted: seq<Proof>)
    requires Increasing(sorted)
    ensures Increasing(Insert(proof, sorted))
  {
    if sorted != [] && sorted[0].y < proof.y {
      InsertIncreasing(proof, sorted[1..]);
      InsertElements(proof, sorted[1..]);
      var rest := Insert(proof, sorted[1..]);
      forall k | 0 <= k < |rest| ensures sorted[0].y <= rest[k].y {
        assert rest[k] in multiset([proof] + sorted[1..]);
      }
    }
  }

  /** Stored proofs are the submitted ones, each once, in increasing order of y. */
  lemma {:induction false} ReservationIsSorted(proofs: seq<Proof>)
    ensures multiset(SortByY(proofs)) == multiset(proofs) && Increasing(SortByY(proofs))
    ensures DistinctYs(proofs) ==> DistinctYs(SortByY(proofs))
  {
    SortedElements(proofs);
    if proofs != [] {
      ReservationIsSorted(proofs[1..]);
      InsertIncreasing(proofs[0], SortByY(proofs[1..]));
    }
    if proofs != [] && DistinctYs(proofs) {
      var rest := SortByY(proofs[1..]);
      forall k | 0 <= k < |rest| ensures rest[k].y != proofs[0].y {
        SortedElements(proofs[1..]);
        assert rest[k] in multiset(proofs[1..]);
        var j :| 0 <= j < |proofs[1..]| && proofs[1..][j] == rest[k];
        assert proofs[j + 1] == rest[k];
      }
      InsertDistinct(proofs[0], rest);
    }
  }

  lemma {:induction false} InsertDistinct(proof: Proof, sorted: seq<Proof>)
    requires DistinctYs(sorted) && forall k :: 0 <= k < |sorted| ==> sorted[k].y != proof.y
    ensures DistinctYs(Insert(proof, sorted))
  {
    if sorted != [] && sorted[0].y < proof.y {
      InsertDistinct(proof, sorted[1..]);
      InsertElements(proof, sorted[1..]);
      var rest := Insert(proof, sorted[1..]);
      forall k | 0 <= k < |rest| ensures sorted[0].y != rest[k].y {
        assert rest[k] in multiset([proof] + sorted[1..]);
      }
    }
  }

  // ----------------------------------------------------- invoices and rows

  lemma CreateInvoiceKeeps(t: Tables, id: string, ir: InvoiceRow)
    requires Sound(t) && CreateInvoice(t, id, ir).Ok?
    ensures Preserves(t, CreateInvoice(t, id, ir).value.tables)
  {
    var u := CreateInvoice(t, id, ir).value.tables;
    hide RowSound, RowsSound, ClaimsSound, AccountsSound, InvoicesSound, KeysSound, Grows;
    assert RowsSound(u) by { NewInvoiceRows(t, u, id); }
    assert ClaimsSound(u) by { ClaimsOnlyReadPayments(t, u); }
    assert AccountsSound(u) by { NewInvoiceAccounts(t, u, id); }
    assert InvoicesSound(u) by { NewInvoiceInvoices(t, u, id); }
    assert KeysSound(u) by { KeysOnlyReadPayments(t, u); }
    NewInvoiceGrows(t, u, id);
  }

  lemma NewInvoiceGrows(t: Tables, u: Tables, id: string)
    requires id !in t.invoices && id in u.invoices && u == t.(invoices := t.invoices[id := u.invoices[id]])
    ensures TablesGrow(t, u)
  {
    hide Grows;
    forall p | p in t.payments ensures Grows(t.payments[p], u.payments[p]) {
      GrowsReflexive(t.payments[p]);
    }
  }

  lemma KeysOnlyReadPayments(t: Tables, u: Tables)
    requires KeysSound(t) && u.payments == t.payments && u.keys == t.keys
    ensures KeysSound(u)
  {
  }

  lemma NewInvoiceInvoices(t: Tables, u: Tables, id: string)
    requires InvoicesSound(t) && id in u.invoices && u.invoices == t.invoices[id := u.invoices[id]]
    requires u.invoices[id].invoice.id == id && u.invoices[id].invoice.paidAt.None?
    requires Ledger.ValidInvoice(u.invoices[id].invoice)
    ensures InvoicesSound(u)
  {
    hide Ledger.ValidInvoice;
  }

  lemma NewInvoiceRows(t: Tables, u: Tables, id: string)
    requires RowsSound(t) && id !in t.invoices && id in u.invoices && u.invoices == t.invoices[id := u.invoices[id]]
    requires u.payments == t.payments
    ensures RowsSound(u)
  {
    hide RowSound;
  }

  lemma NewInvoiceAccounts(t: Tables, u: Tables, id: string)
    requires AccountsSound(t) && id !in t.invoices && id in u.invoices && u.invoices == t.invoices[id := u.invoices[id]]
    requires u.invoices[id].invoice.paidAt.None? && u.payments == t.payments && u.journals == t.journals
    requires u.keys == t.keys
    ensures AccountsSound(u)
  {
    hide JournalSound;
    forall q | q in u.journals ensures q in u.payments && JournalSound(u, q) {
      JournalHasInvoice(t, q);
      JournalStaysSound(t, u, q);
    }
    PayersStay(t, u);
  }

  lemma ClaimsOnlyReadPayments(t: Tables, u: Tables)
    requires ClaimsSound(t)
    requires u.payments == t.payments && u.proofClaims == t.proofClaims && u.invoiceClaims == t.invoiceClaims
    ensures ClaimsSound(u)
  {
    forall p | p in u.payments
      ensures ProofClaimsOf(u, p) == HeldProofs(u.payments[p]) && InvoiceClaimsOf(u, p) == HeldInvoices(u.payments[p])
    {
      assert ProofClaimsOf(u, p) == ProofClaimsOf(t, p) && InvoiceClaimsOf(u, p) == InvoiceClaimsOf(t, p);
    }
  }

  function BlankRow(r: Reservation): PaymentRow {
    PaymentRow(r, None, None, None, [], map[], None, [])
  }

  lemma ReserveKeeps(t: Tables, p: string, requested: Reservation, keysetsObserved: bool)
    requires Sound(t) && Reserve(t, p, requested, keysetsObserved).Ok?
    ensures Preserves(t, Reserve(t, p, requested, keysetsObserved).value.tables)
  {
    hide RowSound, ClaimsSound, AccountsSound, KeysSound, RowsSound, InvoicesSound, Grows;
    if p in t.payments {
      GrowIsReflexive(t);
    } else {
      var r := NormalReservation(requested).value;
      ReservationIsSorted(requested.proofs);
      assert |SortByY(requested.proofs)| == |requested.proofs| by {
        assert |multiset(SortByY(requested.proofs))| == |multiset(requested.proofs)|;
      }
      var row := BlankRow(r);
      var u := Reserve(t, p, requested, keysetsObserved).value.tables;
      NewRowIsSound(t.invoices[r.invoiceId], r);
      assert RowsSound(u) by { NewRowRows(t, u, p); }
      assert ClaimsSound(u) by { NewRowClaims(t, u, p); }
      assert AccountsSound(u) by { NewRowAccounts(t, u, p); }
      assert KeysSound(u) by { NewRowKeys(t, u, p); }
      assert InvoicesSound(u) by { InvoicesUnchanged(t, u); }
      NewRowGrows(t, u, p);
    }
  }

  lemma NewRowGrows(t: Tables, u: Tables, p: string)
    requires p !in t.payments && p in u.payments && u.payments == t.payments[p := u.payments[p]]
    requires u.invoices == t.invoices && u.journals == t.journals && u.keys == t.keys
    ensures TablesGrow(t, u)
  {
    hide Grows;
    forall q | q in t.payments ensures Grows(t.payments[q], u.payments[q]) {
      GrowsReflexive(t.payments[q]);
    }
  }

  lemma NewRowRows(t: Tables, u: Tables, p: string)
    requires RowsSound(t) && p !in t.payments && p in u.payments && u.payments == t.payments[p := u.payments[p]]
    requires u.invoices == t.invoices
    requires HasInvoice(t, u.payments[p]) && RowSound(t.invoices[u.payments[p].reservation.invoiceId], u.payments[p])
    ensures RowsSound(u)
  {
    hide RowSound;
  }

  lemma NewRowClaims(t: Tables, u: Tables, p: string)
    requires ClaimsSound(t) && p !in t.payments && p in u.payments && u.payments == t.payments[p := u.payments[p]]
    requires u.payments[p].events == [] && u.payments[p].effect.None?
    requires forall k :: k in ClaimKeys(u.payments[p]) ==> k !in t.proofClaims
    requires u.proofClaims == t.proofClaims + (map k | k in ClaimKeys(u.payments[p]) :: p)
    requires u.invoiceClaims == t.invoiceClaims
    ensures ClaimsSound(u)
  {
    hide ClaimKeys;
    forall q | q in u.payments
      ensures ProofClaimsOf(u, q) == HeldProofs(u.payments[q]) && InvoiceClaimsOf(u, q) == HeldInvoices(u.payments[q])
    {
      assert InvoiceClaimsOf(u, q) == InvoiceClaimsOf(t, q);
      if q == p {
        assert ProofClaimsOf(t, p) == {};
        assert InvoiceClaimsOf(t, p) == {};
        assert ProofClaimsOf(u, p) == ClaimKeys(u.payments[p]);
      } else {
        assert ProofClaimsOf(u, q) == ProofClaimsOf(t, q);
      }
    }
  }

  lemma NewRowAccounts(t: Tables, u: Tables, p: string)
    requires AccountsSound(t) && p !in t.payments && p in u.payments && u.payments == t.payments[p := u.payments[p]]
    requires u.payments[p].events == []
    requires u.invoices == t.invoices && u.journals == t.journals && u.keys == t.keys
    ensures AccountsSound(u)
  {
    hide JournalSound;
    forall q | q in u.journals ensures q in u.payments && JournalSound(u, q) {
      JournalStaysSound(t, u, q);
    }
    PayersStay(t, u);
  }

  lemma NewRowKeys(t: Tables, u: Tables, p: string)
    requires KeysSound(t) && p !in t.payments && p in u.payments && u.payments == t.payments[p := u.payments[p]]
    requires u.payments[p].events == [] && u.payments[p].attempt.None? && u.keys == t.keys
    ensures KeysSound(u)
  {
  }

  // ------------------------------------------------- writes before dispatch

  lemma RowIsSound(t: Tables, p: string)
    requires Sound(t) && p in t.payments
    ensures HasInvoice(t, t.payments[p]) && RowSound(t.invoices[t.payments[p].reservation.invoiceId], t.payments[p])
  {
  }

  lemma RowInInvoice(t: Tables, q: string)
    requires Sound(t)
    ensures q in t.payments ==>
              var i := t.payments[q].reservation.invoiceId; i in t.invoices && RowSound(t.invoices[i], t.payments[q])
  {
    if q in t.payments { RowIsSound(t, q); }
  }

  lemma AttemptKeyHeld(t: Tables, p: string)
    requires Sound(t) && p in t.payments && t.payments[p].attempt.Some?
    ensures var key := AttemptKey(t.payments[p].attempt.value.attemptId); key in t.keys && t.keys[key] == p
  {
  }

  lemma SameKeys(t: Tables, p: string, row: PaymentRow)
    ensures WithRow(t, p, row).(keys := t.keys) == WithRow(t, p, row)
  {
  }

  lemma StoreCustodyKeeps(t: Tables, p: string, createdAt: nat, proofCount: nat)
    requires Sound(t) && StoreCustody(t, p, createdAt, proofCount).Ok?
    ensures Preserves(t, StoreCustody(t, p, createdAt, proofCount).value.tables)
  {
    hide Sound, TablesGrow;
    var row := t.payments[p];
    RowIsSound(t, p);
    var after := row.(custodyAt := Some(createdAt));
    EarlyWriteKeepsRow(t.invoices[row.reservation.invoiceId], row, after) by { hide SnapshotsSound, EffectSound; }
    if row.attempt.Some? { AttemptKeyHeld(t, p); }
    hide RowSound, Grows;
    RowWriteKeeps(t, p, after, t.keys);
    SameKeys(t, p, after);
  }

  lemma BeginQuoteKeeps(t: Tables, p: string, attempt: Attempt)
    requires Sound(t) && BeginQuote(t, p, attempt).Ok?
    ensures Preserves(t, BeginQuote(t, p, attempt).value.tables)
  {
    hide Sound, TablesGrow;
    var row := t.payments[p];
    if row.attempt.Some? {
      GrowIsReflexive(t);
    } else {
      RowIsSound(t, p);
      var after := row.(attempt := Some(attempt));
      var ir := t.invoices[row.reservation.invoiceId];
      assert QuotesSound(ir, after) by { hide SnapshotsSound, EffectSound, EventsSound, OutcomeSound; }
      EarlyWriteKeepsRow(ir, row, after) by { hide SnapshotsSound, EffectSound, QuotesSound; }
      hide RowSound, Grows;
      RowWriteKeeps(t, p, after, t.keys[AttemptKey(attempt.attemptId) := p]);
    }
  }

  lemma RecordAmbiguousKeeps(t: Tables, p: string, attemptId: string, reason: string, recordedAt: nat)
    requires Sound(t) && RecordAmbiguous(t, p, attemptId, reason, recordedAt).Ok?
    ensures Preserves(t, RecordAmbiguous(t, p, attemptId, reason, recordedAt).value.tables)
  {
    hide Sound, TablesGrow;
    var row := t.payments[p];
    if row.outcome.Some? {
      GrowIsReflexive(t);
    } else {
      RowIsSound(t, p);
      var after := row.(outcome := Some(Ambiguous(reason, recordedAt)));
      var ir := t.invoices[row.reservation.invoiceId];
      assert QuotesSound(ir, after) by { hide SnapshotsSound, EffectSound, EventsSound, OutcomeSound; }
      EarlyWriteKeepsRow(ir, row, after) by { hide SnapshotsSound, EffectSound, QuotesSound; }
      AttemptKeyHeld(t, p);
      hide RowSound, Grows;
      RowWriteKeeps(t, p, after, t.keys);
      SameKeys(t, p, after);
    }
  }

  lemma RecordQuoteKeeps(t: Tables, p: string, attemptId: string, quote: Quote)
    requires Sound(t) && RecordQuote(t, p, attemptId, quote).Ok?
    ensures Preserves(t, RecordQuote(t, p, attemptId, quote).value.tables)
  {
    hide *;
    RecordQuoteShape(t, p, attemptId, quote);
    if RecordQuote(t, p, attemptId, quote).value.replayed {
      PreservesSame(t);
    } else {
      var row := t.payments[p];
      var after := row.(outcome := Some(Quoted(quote.terms, quote.observedAt)),
                        sightings := row.sightings + [Sighting(quote.observedAt, quote.state)]);
      RowInInvoice(t, p);
      QuoteRecorded(t.invoices[row.reservation.invoiceId], row, quote);
      AttemptKeyHeld(t, p);
      RowWriteKeeps(t, p, after, t.keys[QuoteKey(quote.terms.mintUrl, quote.terms.quoteId) := p]);
      PreservesBoth(t, RecordQuote(t, p, attemptId, quote).value.tables);
    }
  }

  lemma PreservesBoth(t: Tables, u: Tables)
    requires Sound(u) && TablesGrow(t, u)
    ensures Preserves(t, u)
  {
  }

  lemma RecordQuoteShape(t: Tables, p: string, attemptId: string, quote: Quote)
    requires RecordQuote(t, p, attemptId, quote).Ok?
    ensures p in t.payments && t.payments[p].attempt.Some?
    ensures var row, done := t.payments[p], RecordQuote(t, p, attemptId, quote).value;
            if done.replayed then done.tables == t
            else
              && row.outcome.None? && row.events == [] && row.effect.None?
              && MatchesAttempt(row, row.attempt.value, quote.terms) && quote.state.Unpaid?
              && row.attempt.value.startedAt <= quote.observedAt < quote.terms.expiry
              && quote.terms.expiry <= row.attempt.value.startedAt + MAX_QUOTE_TTL
              && QuoteKey(quote.terms.mintUrl, quote.terms.quoteId) !in t.keys
              && done.tables == WithRow(t, p, row.(outcome := Some(Quoted(quote.terms, quote.observedAt)),
                                                   sightings := row.sightings + [Sighting(quote.observedAt, quote.state)]))
                                .(keys := t.keys[QuoteKey(quote.terms.mintUrl, quote.terms.quoteId) := p])
  {
    hide MatchesAttempt, AttemptReadable;
  }

  lemma QuoteRecorded(ir: InvoiceRow, row: PaymentRow, quote: Quote)
    requires RowSound(ir, row) && row.events == [] && row.effect.None? && row.attempt.Some? && row.outcome.None?
    requires MatchesAttempt(row, row.attempt.value, quote.terms) && quote.state.Unpaid?
    requires row.attempt.value.startedAt <= quote.observedAt < quote.terms.expiry
    requires quote.terms.expiry <= row.attempt.value.startedAt + MAX_QUOTE_TTL
    ensures var after := row.(outcome := Some(Quoted(quote.terms, quote.observedAt)),
                              sightings := row.sightings + [Sighting(quote.observedAt, quote.state)]);
            RowSound(ir, after) && Grows(row, after)
  {
    var after := row.(outcome := Some(Quoted(quote.terms, quote.observedAt)),
                      sightings := row.sightings + [Sighting(quote.observedAt, quote.state)]);
    assert QuotesSound(ir, after) by {
      hide SnapshotsSound, EffectSound, EventsSound, OutcomeSound;
      FirstSightingReadable(row.attempt.value.startedAt, quote.terms.expiry, quote.observedAt);
      assert after.sightings == [Sighting(quote.observedAt, Unpaid)];
    }
    hide RowSound, Grows, QuotesSound;
    EarlyWriteKeepsRow(ir, row, after);
  }

  // ------------------------------------------------------------ observations

  lemma ObserveQuoteKeeps(t: Tables, p: string, attemptId: string, quote: Quote)
    requires Sound(t) && ObserveQuote(t, p, attemptId, quote).Ok?
    ensures Preserves(t, ObserveQuote(t, p, attemptId, quote).value.tables)
  {
    hide Sound, TablesGrow;
    var row := t.payments[p];
    if SightedAt(row.sightings, quote.observedAt) {
      GrowIsReflexive(t);
    } else {
      RowIsSound(t, p);
      var seen := Sighting(quote.observedAt, quote.state);
      assert HasQuotedEvidence(row);
      hide RowSound, Grows;
      SightingKeepsRow(t.invoices[row.reservation.invoiceId], row, seen);
      AttemptKeyHeld(t, p);
      var after := row.(sightings := row.sightings + [seen]);
      RowWriteKeeps(t, p, after, t.keys);
      SameKeys(t, p, after);
    }
  }

  lemma ObserveProofsKeeps(t: Tables, p: string, report: ProofReport)
    requires Sound(t) && ObserveProofs(t, p, report).Ok?
    ensures Preserves(t, ObserveProofs(t, p, report).value.tables)
  {
    hide Sound, TablesGrow, ProofHistory.HasRegression, ProofHistory.HasPriorSpent, ProofHistory.HasLaterNonSpent;
    var row := t.payments[p];
    var o := report.observation;
    if o.observedAt in row.snapshots {
      GrowIsReflexive(t);
      assert WithRow(t, p, row) == t;
    } else {
      RowIsSound(t, p);
      ProofHistory.PersistKeepsHistory(row.snapshots, o, Terminal(row));
      assert |o.states| == |row.reservation.proofs|;
      hide RowSound, Grows;
      SnapshotKeepsRow(t.invoices[row.reservation.invoiceId], row, o);
      if row.attempt.Some? { AttemptKeyHeld(t, p); }
      var after := row.(snapshots := row.snapshots[o.observedAt := o.states]);
      RowWriteKeeps(t, p, after, t.keys);
      SameKeys(t, p, after);
    }
  }

  // ------------------------------------------------------------ event writes

  lemma PreservesFromParts(t: Tables, u: Tables)
    requires InvoicesSound(u) && RowsSound(u) && ClaimsSound(u) && AccountsSound(u) && KeysSound(u)
    requires TablesGrow(t, u)
    ensures Preserves(t, u)
  {
  }

  lemma PreservesSame(t: Tables)
    requires Sound(t)
    ensures Preserves(t, t)
  {
    hide Sound;
    GrowIsReflexive(t);
  }

  lemma NotTerminal(row: PaymentRow)
    requires !Terminal(row)
    ensures !Current(row).Released? && !Current(row).Consumed?
  {
  }

  lemma AppendFacts(row: PaymentRow, draft: Event)
    ensures var after := AppendEvent(row, draft);
            && after.events == row.events + [draft] && Current(after) == draft.state
            && after.reservation == row.reservation && after.attempt == row.attempt && after.effect == row.effect
    ensures !Current(row).Released? && !draft.state.Released? ==> HeldInvoices(AppendEvent(row, draft)) == HeldInvoices(row)
  {
  }

  /** Row, key and growth facts of any write that appends one event to payment `p`. */
  lemma EventWriteKeeps(t: Tables, u: Tables, p: string, draft: Event)
    requires Sound(t) && p in t.payments && p in u.payments && EventKey(draft.eventId) !in t.keys
    requires u.payments == t.payments[p := u.payments[p]] && u.invoices == t.invoices && u.journals == t.journals
    requires RowSound(t.invoices[t.payments[p].reservation.invoiceId], u.payments[p]) && Grows(t.payments[p], u.payments[p])
    requires u.payments[p].events == t.payments[p].events + [draft]
    requires u.payments[p].attempt == t.payments[p].attempt
    requires forall k :: k in t.keys ==> k in u.keys && u.keys[k] == t.keys[k]
    requires EventKey(draft.eventId) in u.keys && u.keys[EventKey(draft.eventId)] == p
    ensures RowsSound(u) && KeysSound(u) && InvoicesSound(u) && TablesGrow(t, u)
  {
    assert u.payments[p].reservation == t.payments[p].reservation;
    hide *;
    SoundParts(t);
    RowHasInvoice(t, p);
    InvoicesUnchanged(t, u);
    assert HasInvoice(t, u.payments[p]) by { SameInvoice(t, t.payments[p], u.payments[p]); }
    RowWriteRows(t, u, p);
    EventWriteKeys(t, u, p, draft);
    EventWriteGrows(t, u, p);
  }

  lemma EventWriteKeys(t: Tables, u: Tables, p: string, draft: Event)
    requires KeysSound(t) && p in t.payments && p in u.payments
    requires u.payments == t.payments[p := u.payments[p]]
    requires u.payments[p].events == t.payments[p].events + [draft] && u.payments[p].attempt == t.payments[p].attempt
    requires forall k :: k in t.keys ==> k in u.keys && u.keys[k] == t.keys[k]
    requires EventKey(draft.eventId) in u.keys && u.keys[EventKey(draft.eventId)] == p
    ensures KeysSound(u)
  {
    RowHasKeys(t, p);
    hide KeysSound;
    forall k | 0 <= k < |u.payments[p].events|
      ensures var key := EventKey(u.payments[p].events[k].eventId); key in u.keys && u.keys[key] == p
    {
      if k < |t.payments[p].events| { assert u.payments[p].events[k] == t.payments[p].events[k]; }
    }
    assert t.payments[p].attempt.Some? ==>
             AttemptKey(t.payments[p].attempt.value.attemptId) in t.keys
             && t.keys[AttemptKey(t.payments[p].attempt.value.attemptId)] == p by { RowHasAttemptKey(t, p); }
    RowWriteKeys(t, u, p);
  }

  lemma RowHasAttemptKey(t: Tables, p: string)
    requires KeysSound(t) && p in t.payments
    ensures t.payments[p].attempt.Some? ==>
              var key := AttemptKey(t.payments[p].attempt.value.attemptId); key in t.keys && t.keys[key] == p
  {
  }

  lemma EventWriteGrows(t: Tables, u: Tables, p: string)
    requires p in t.payments && p in u.payments
    requires u.payments == t.payments[p := u.payments[p]] && u.invoices == t.invoices && u.journals == t.journals
    requires Grows(t.payments[p], u.payments[p])
    requires forall k :: k in t.keys ==> k in u.keys && u.keys[k] == t.keys[k]
    ensures TablesGrow(t, u)
  {
    hide Grows;
    forall q | q in t.payments ensures Grows(t.payments[q], u.payments[q]) {
      if q != p { GrowsReflexive(t.payments[q]); }
    }
  }

  lemma UnusedIdIsNew(t: Tables, p: string, eventId: string)
    requires Sound(t) && p in t.payments && EventKey(eventId) !in t.keys
    ensures forall k :: 0 <= k < |t.payments[p].events| ==> t.payments[p].events[k].eventId != eventId
  {
    RowHasKeys(t, p);
  }

  lemma NotConsumedHasNoJournal(t: Tables, p: string)
    requires AccountsSound(t) && p in t.payments && !Current(t.payments[p]).Consumed?
    ensures p !in t.journals
  {
    hide Ledger.AcceptInvoicePayment;
    assert p in t.journals ==> JournalSound(t, p);
  }

  // ------------------------------------------------------------ start effect

  lemma StartClaims(t: Tables, u: Tables, p: string)
    requires ClaimsSound(t) && p in t.payments && p in u.payments && u.payments == t.payments[p := u.payments[p]]
    requires u.payments[p].reservation == t.payments[p].reservation
    requires !Current(t.payments[p]).Released? && !Current(u.payments[p]).Released?
    requires t.payments[p].effect.None? && u.payments[p].effect.Some?
    requires t.payments[p].reservation.invoiceId !in t.invoiceClaims
    requires u.invoiceClaims == t.invoiceClaims[t.payments[p].reservation.invoiceId := p]
    requires u.proofClaims == t.proofClaims
    ensures ClaimsSound(u)
  {
    var i := t.payments[p].reservation.invoiceId;
    forall q | q in u.payments
      ensures ProofClaimsOf(u, q) == HeldProofs(u.payments[q]) && InvoiceClaimsOf(u, q) == HeldInvoices(u.payments[q])
    {
      assert ProofClaimsOf(u, q) == ProofClaimsOf(t, q);
      assert InvoiceClaimsOf(u, q) == if q == p then InvoiceClaimsOf(t, q) + {i} else InvoiceClaimsOf(t, q);
    }
  }

  lemma StartRowKeeps(t: Tables, p: string, eventId: string, effect: Effect)
    requires Sound(t) && p in t.payments && StartEffect(t, p, eventId, effect).Ok? && EventKey(eventId) !in t.keys
    ensures var row := t.payments[p];
            var after := AppendEvent(row.(effect := Some(effect)), StartDraft(eventId, effect));
            && HasInvoice(t, row) && Current(row).Reserved? && row.effect.None?
            && row.reservation.invoiceId !in t.invoiceClaims
            && EffectKeys(row.reservation.mintUrl, effect) !! t.keys.Keys
            && RowSound(t.invoices[row.reservation.invoiceId], after) && Grows(row, after)
  {
    StartConditions(t, p, eventId, effect);
    hide *;
    RowIsSound(t, p);
    StartKeepsRow(t.invoices[t.payments[p].reservation.invoiceId], t.payments[p], eventId, effect);
  }

  /** What StartEffect has checked when it writes. */
  lemma StartConditions(t: Tables, p: string, eventId: string, effect: Effect)
    requires p in t.payments && StartEffect(t, p, eventId, effect).Ok? && EventKey(eventId) !in t.keys
    ensures var row := t.payments[p];
            && HasInvoice(t, row) && Current(row).Reserved? && row.effect.None?
            && row.reservation.invoiceId !in t.invoiceClaims
            && EffectKeys(row.reservation.mintUrl, effect) !! t.keys.Keys
            && (effect.kind.Melt? ==> effect.startedAt < effect.kind.referenceExpiresAt)
            && (var ir := t.invoices[row.reservation.invoiceId];
                && ir.invoice.createdAt <= effect.startedAt < ir.invoice.expiresAt
                && row.reservation.reservedAt <= effect.startedAt
                && (effect.kind.Melt? ==>
                      && HasQuotedEvidence(row) && RouteIn(ir, row.reservation).Some?
                      && TermsMatchEffect(row, ir.invoice, RouteIn(ir, row.reservation).value, effect)
                      && UnpaidAtDispatch(row, effect.startedAt)
                      && Last(row.sightings).state.Unpaid? && Last(row.sightings).observedAt <= effect.startedAt))
  {
    assert HasInvoice(t, t.payments[p]) by { assert Readable(t, p); }
    hide Readable, TermsMatchEffect, UnpaidAtDispatch, HasQuotedEvidence, CheckedLoad;
  }

  lemma StartEffectKeeps(t: Tables, p: string, eventId: string, effect: Effect)
    requires Sound(t) && StartEffect(t, p, eventId, effect).Ok?
    ensures Preserves(t, StartEffect(t, p, eventId, effect).value.tables)
  {
    hide *;
    assert p in t.payments by { StartNeedsPayment(t, p, eventId, effect); }
    if EventKey(eventId) in t.keys {
      StartReplayShape(t, p, eventId, effect);
      PreservesSame(t);
    } else {
      StartFacts(t.payments[p], eventId, effect);
      StartRowKeeps(t, p, eventId, effect);
      StartShape(t, p, eventId, effect);
      SoundParts(t);
      var u := StartEffect(t, p, eventId, effect).value.tables;
      EventWriteKeeps(t, u, p, StartDraft(eventId, effect));
      assert ClaimsSound(u) by { StartClaims(t, u, p); }
      assert AccountsSound(u) by {
        NotConsumedHasNoJournal(t, p);
        RowWriteAccounts(t, u, p);
      }
      PreservesFromParts(t, u);
    }
  }

  lemma StartNeedsPayment(t: Tables, p: string, eventId: string, effect: Effect)
    requires StartEffect(t, p, eventId, effect).Ok?
    ensures p in t.payments
  {
  }

  lemma StartFacts(row: PaymentRow, eventId: string, effect: Effect)
    ensures var after := AppendEvent(row.(effect := Some(effect)), StartDraft(eventId, effect));
            && after.events == row.events + [StartDraft(eventId, effect)]
            && after.reservation == row.reservation && after.attempt == row.attempt && after.effect == Some(effect)
            && Current(after).DispatchStarted?
    ensures StartDraft(eventId, effect).eventId == eventId
  {
  }

  lemma StartReplayShape(t: Tables, p: string, eventId: string, effect: Effect)
    requires StartEffect(t, p, eventId, effect).Ok? && EventKey(eventId) in t.keys
    ensures StartEffect(t, p, eventId, effect).value == Committed(t, true)
  {
    hide Readable, DispatchEvidence;
  }

  lemma StartShape(t: Tables, p: string, eventId: string, effect: Effect)
    requires p in t.payments && StartEffect(t, p, eventId, effect).Ok? && EventKey(eventId) !in t.keys
    requires EffectKeys(t.payments[p].reservation.mintUrl, effect) !! t.keys.Keys
    ensures var row := t.payments[p];
            var u := StartEffect(t, p, eventId, effect).value.tables;
            && !StartEffect(t, p, eventId, effect).value.replayed
            && u.payments == t.payments[p := AppendEvent(row.(effect := Some(effect)), StartDraft(eventId, effect))]
            && u.invoices == t.invoices && u.journals == t.journals && u.proofClaims == t.proofClaims
            && u.invoiceClaims == t.invoiceClaims[row.reservation.invoiceId := p]
            && (forall k :: k in t.keys ==> k in u.keys && u.keys[k] == t.keys[k])
            && EventKey(eventId) in u.keys && u.keys[EventKey(eventId)] == p
            && Readable(u, p)
  {
    hide Readable, DispatchEvidence;
  }

  // -------------------------------------------------------------- transitions

  lemma ReleasedClaims(t: Tables, u: Tables, p: string)
    requires ClaimsSound(t) && p in t.payments && p in u.payments && u.payments == t.payments[p := u.payments[p]]
    requires Current(u.payments[p]).Released?
    requires u.proofClaims == t.proofClaims - ProofClaimsOf(t, p)
    requires u.invoiceClaims == t.invoiceClaims - InvoiceClaimsOf(t, p)
    ensures ClaimsSound(u)
  {
    hide Current, ClaimKeys;
    forall q | q in u.payments
      ensures ProofClaimsOf(u, q) == HeldProofs(u.payments[q]) && InvoiceClaimsOf(u, q) == HeldInvoices(u.payments[q])
    {
      assert ProofClaimsOf(u, q) == if q == p then {} else ProofClaimsOf(t, q);
      assert InvoiceClaimsOf(u, q) == if q == p then {} else InvoiceClaimsOf(t, q);
    }
  }

  /** What a committed, non-replayed transition writes. */
  lemma TransitionShape(t: Tables, p: string, draft: Event)
    requires p in t.payments && PersistTransition(t, p, draft).Ok? && EventKey(draft.eventId) !in t.keys
    ensures var u := PersistTransition(t, p, draft).value.tables;
            && !PersistTransition(t, p, draft).value.replayed
            && u.payments == t.payments[p := AppendEvent(t.payments[p], draft)]
            && u.invoices == t.invoices && u.journals == t.journals
            && u.keys == t.keys[EventKey(draft.eventId) := p]
            && u.proofClaims == (if draft.state.Released? then t.proofClaims - ProofClaimsOf(t, p) else t.proofClaims)
            && u.invoiceClaims == (if draft.state.Released? then t.invoiceClaims - InvoiceClaimsOf(t, p) else t.invoiceClaims)
            && Readable(u, p)
            && (if draft.state.Released? && draft.evidence == Some(PreDispatch) then
                  Current(t.payments[p]).Reserved? && t.payments[p].effect.None?
                  && t.payments[p].reservation.reservedAt <= draft.recordedAt
                else FollowsEffect(t.payments[p], draft) && |t.payments[p].events| < MAX_EVENTS)
  {
    hide Readable, FollowsEffect;
    var u := PersistTransition(t, p, draft).value.tables;
    if draft.state.Released? {
      assert ProofClaimsOf(WithEvent(t, p, draft), p) == ProofClaimsOf(t, p);
      assert InvoiceClaimsOf(WithEvent(t, p, draft), p) == InvoiceClaimsOf(t, p);
    }
  }

  lemma TransitionReplayShape(t: Tables, p: string, draft: Event)
    requires p in t.payments && PersistTransition(t, p, draft).Ok? && EventKey(draft.eventId) in t.keys
    ensures PersistTransition(t, p, draft).value == Committed(t, true)
  {
    hide Readable, FollowsEffect;
  }

  /** A transition that leaves the accounting alone, once its row is known to stay sound. */
  lemma TransitionKeeps(t: Tables, p: string, draft: Event)
    requires Sound(t) && p in t.payments && PersistTransition(t, p, draft).Ok? && EventKey(draft.eventId) !in t.keys
    requires !draft.state.Consumed? && !Terminal(t.payments[p])
    requires RowSound(t.invoices[t.payments[p].reservation.invoiceId], AppendEvent(t.payments[p], draft))
    requires Grows(t.payments[p], AppendEvent(t.payments[p], draft))
    ensures Preserves(t, PersistTransition(t, p, draft).value.tables)
  {
    hide *;
    NotTerminal(t.payments[p]);
    TransitionShape(t, p, draft);
    AppendFacts(t.payments[p], draft);
    SoundParts(t);
    var u := PersistTransition(t, p, draft).value.tables;
    EventWriteKeeps(t, u, p, draft);
    assert ClaimsSound(u) by {
      if draft.state.Released? { ReleasedClaims(t, u, p); } else { RowWriteClaims(t, u, p); }
    }
    assert AccountsSound(u) by {
      NotConsumedHasNoJournal(t, p);
      RowWriteAccounts(t, u, p);
    }
    PreservesFromParts(t, u);
  }

  lemma RecordEventKeeps(t: Tables, p: string, draft: Event)
    requires Sound(t) && RecordEvent(t, p, draft).Ok?
    requires draft.state in {PendingOutcome, NeedsAttention} && PublicShape(draft) && draft.snapshotAt.None?
    ensures Preserves(t, RecordEvent(t, p, draft).value.tables)
  {
    if EventKey(draft.eventId) in t.keys {
      TransitionReplayShape(t, p, draft);
      PreservesSame(t);
    } else {
      assert draft.snapshotAt.None? && draft.evidence != Some(MeltUnpaidAfterExpiry) && !draft.state.Consumed?;
      assert OutcomeSound(t.payments[p], draft);
      hide PersistTransition, Readable, RowSound, Grows, Sound, TablesGrow, OutcomeSound, PublicShape;
      RowIsSound(t, p);
      UnusedIdIsNew(t, p, draft.eventId);
      TransitionShape(t, p, draft);
      TransitionKeepsRow(t.invoices[t.payments[p].reservation.invoiceId], t.payments[p], draft);
      TransitionKeeps(t, p, draft);
    }
  }

  // ------------------------------------------------------------------ release

  lemma PreDispatchReleaseKeeps(t: Tables, p: string, eventId: string, recordedAt: nat)
    requires Sound(t) && Release(t, p, ReleasePreDispatch(eventId, recordedAt)).Ok?
    ensures Preserves(t, Release(t, p, ReleasePreDispatch(eventId, recordedAt)).value.tables)
  {
    var draft := ReleaseDraft(ReleasePreDispatch(eventId, recordedAt));
    if EventKey(eventId) in t.keys {
      TransitionReplayShape(t, p, draft);
      PreservesSame(t);
    } else {
      hide PersistTransition, Readable, RowSound, Grows, Sound, TablesGrow;
      RowIsSound(t, p);
      TransitionShape(t, p, draft);
      PreDispatchReleaseKeepsRow(t.invoices[t.payments[p].reservation.invoiceId], t.payments[p], eventId, recordedAt);
      TransitionKeeps(t, p, draft);
    }
  }

  lemma RowParts(ir: InvoiceRow, row: PaymentRow)
    requires RowSound(ir, row)
    ensures SnapshotsSound(row) && EventsReadable(row) && QuotesSound(ir, row)
  {
  }

  /** A release after failure is one transition, made with the evidence that its kind demands. */
  lemma ReleaseShape(t: Tables, p: string, input: ReleaseInput)
    requires input.ReleaseAfterFailure? && Release(t, p, input).Ok?
    ensures p in t.payments && Release(t, p, input) == PersistTransition(t, p, ReleaseDraft(input))
    ensures ReleaseDraft(input).eventId == input.eventId && PublicShape(ReleaseDraft(input))
    ensures var row := t.payments[p];
            && SnapshotSupports(row, input.proofStateAt, ProofHistory.Unspent)
            && (input.evidence.MeltUnpaidAfterExpiry? ==>
                  && HasQuotedEvidence(row) && Last(row.sightings) == Sighting(input.evidenceAt, Unpaid)
                  && IsLatestSnapshot(row.snapshots, input.proofStateAt))
  {
    hide Readable, PersistTransition, EffectEvidence, HasQuotedEvidence, SnapshotSupports, AttemptMatches, IsLatestSnapshot;
  }

  lemma FailureEvidenceIsSound(ir: InvoiceRow, t: Tables, p: string, input: ReleaseInput)
    requires input.ReleaseAfterFailure? && Release(t, p, input).Ok? && p in t.payments && RowSound(ir, t.payments[p])
    ensures OutcomeSound(t.payments[p], ReleaseDraft(input))
    ensures ReleaseDraft(input).snapshotAt == Some(input.proofStateAt)
    ensures SnapshotSupports(t.payments[p], input.proofStateAt, ProofHistory.Unspent)
  {
    ReleaseShape(t, p, input);
    var row := t.payments[p];
    RowParts(ir, row);
    hide Release, RowSound, SnapshotsSound, HasQuotedEvidence, NeverPaid, NeverSpent, SnapshotSupports, IsLatestSnapshot;
    if input.evidence.MeltUnpaidAfterExpiry? {
      ReleaseEvidenceExcludesPayment(row, input.evidenceAt, input.proofStateAt);
    }
  }

  lemma FailureReleaseKeeps(t: Tables, p: string, input: ReleaseInput)
    requires Sound(t) && input.ReleaseAfterFailure? && Release(t, p, input).Ok?
    ensures Preserves(t, Release(t, p, input).value.tables)
  {
    var draft := ReleaseDraft(input);
    ReleaseShape(t, p, input);
    if EventKey(input.eventId) in t.keys {
      hide Release;
      TransitionReplayShape(t, p, draft);
      PreservesSame(t);
    } else {
      assert PublicShape(draft) && draft.state.Released? && draft.evidence != Some(PreDispatch);
      hide *;
      var row := t.payments[p];
      RowIsSound(t, p);
      UnusedIdIsNew(t, p, input.eventId);
      TransitionShape(t, p, draft);
      FailureEvidenceIsSound(t.invoices[row.reservation.invoiceId], t, p, input);
      TransitionKeepsRow(t.invoices[row.reservation.invoiceId], row, draft);
      TransitionKeeps(t, p, draft);
    }
  }

  // --------------------------------------------------------------- acceptance

  /** What a committed, non-replayed acceptance has checked and written. */
  ghost predicate AcceptWrites(t: Tables, p: string, input: AcceptInput, u: Tables) {
    && p in t.payments && HasInvoice(t, t.payments[p])
    && var row := t.payments[p];
       var id := row.reservation.invoiceId;
       var payment := PaymentInputOf(row, p, input);
       var draft := AcceptDraft(input);
       && FollowsEffect(row, draft) && |row.events| < MAX_EVENTS
       && SnapshotSupports(row, input.proofStateAt, ProofHistory.Spent)
       && Sighting(input.evidenceAt, Paid) in row.sightings
       && p !in t.journals && EventKey(input.eventId) !in t.keys && JournalKey(input.journalId) !in t.keys
       && Ledger.AcceptInvoicePayment(t.invoices[id].invoice, payment).Ok?
       && var accepted := Ledger.AcceptInvoicePayment(t.invoices[id].invoice, payment).value;
          && u.payments == t.payments[p := AppendEvent(row, draft)]
          && u.invoices == t.invoices[id := t.invoices[id].(invoice := accepted.invoice)]
          && u.journals == t.journals[p := accepted]
          && u.keys == t.keys[JournalKey(input.journalId) := p][EventKey(input.eventId) := p]
          && u.proofClaims == t.proofClaims && u.invoiceClaims == t.invoiceClaims
  }

  lemma AcceptShape(t: Tables, p: string, input: AcceptInput)
    requires Sound(t) && Accept(t, p, input).Ok?
    ensures p in t.payments
    ensures EventKey(input.eventId) in t.keys ==> Accept(t, p, input).value == Committed(t, true)
    ensures EventKey(input.eventId) !in t.keys ==>
              && !Accept(t, p, input).value.replayed
              && AcceptWrites(t, p, input, Accept(t, p, input).value.tables)
              && Readable(Accept(t, p, input).value.tables, p)
  {
    assert p in t.payments;
    if EventKey(input.eventId) in t.keys {
      AcceptReplayShape(t, p, input);
    } else {
      RowIsSound(t, p);
      AcceptPays(t, p, input);
      hide Sound, RowSound, Readable, SnapshotSupports, Ledger.AcceptInvoicePayment, PersistTransition, FollowsEffect, Accept,
           PersistAccepted, AppendEvent;
      TransitionShape(PersistAccepted(t, p, input).value.tables, p, AcceptDraft(input));
    }
  }

  lemma AcceptReplayShape(t: Tables, p: string, input: AcceptInput)
    requires p in t.payments && Accept(t, p, input).Ok? && EventKey(input.eventId) in t.keys
    ensures Accept(t, p, input).value == Committed(t, true)
  {
    hide Readable, SnapshotSupports, PersistAccepted, PersistTransition, EffectEvidence;
  }

  /** The accounting half of an acceptance, before its event is written. */
  lemma AcceptPays(t: Tables, p: string, input: AcceptInput)
    requires p in t.payments && HasInvoice(t, t.payments[p])
    requires Accept(t, p, input).Ok? && EventKey(input.eventId) !in t.keys
    ensures PersistAccepted(t, p, input).Ok?
    ensures var row, id := t.payments[p], t.payments[p].reservation.invoiceId;
            var paid := PersistAccepted(t, p, input).value.tables;
            && Accept(t, p, input) == PersistTransition(paid, p, AcceptDraft(input))
            && SnapshotSupports(row, input.proofStateAt, ProofHistory.Spent)
            && Sighting(input.evidenceAt, Paid) in row.sightings
            && p !in t.journals && JournalKey(input.journalId) !in t.keys
            && Ledger.AcceptInvoicePayment(t.invoices[id].invoice, PaymentInputOf(row, p, input)).Ok?
            && var accepted := Ledger.AcceptInvoicePayment(t.invoices[id].invoice, PaymentInputOf(row, p, input)).value;
               && paid == t.(invoices := t.invoices[id := t.invoices[id].(invoice := accepted.invoice)],
                             journals := t.journals[p := accepted],
                             keys := t.keys[JournalKey(input.journalId) := p])
    ensures AcceptDraft(input).eventId == input.eventId && AcceptDraft(input).state.Consumed?
  {
    hide Readable, SnapshotSupports, Ledger.AcceptInvoicePayment, PersistTransition, PaymentInputOf;
  }

  lemma AcceptRowKeeps(t: Tables, p: string, input: AcceptInput, u: Tables)
    requires Sound(t) && AcceptWrites(t, p, input, u)
    ensures var row := t.payments[p];
            && RowSound(t.invoices[row.reservation.invoiceId], AppendEvent(row, AcceptDraft(input)))
            && Grows(row, AppendEvent(row, AcceptDraft(input)))
  {
    hide Sound, RowSound, Grows, FollowsEffect, SnapshotSupports, Ledger.AcceptInvoicePayment;
    var row := t.payments[p];
    RowIsSound(t, p);
    UnusedIdIsNew(t, p, input.eventId);
    TransitionKeepsRow(t.invoices[row.reservation.invoiceId], row, AcceptDraft(input));
  }

  /** The consequences of AcceptWrites that the global invariants need. */
  lemma AcceptFacts(t: Tables, p: string, input: AcceptInput, u: Tables)
    requires AcceptWrites(t, p, input, u)
    ensures p in t.payments && p in u.payments && u.payments == t.payments[p := u.payments[p]]
    ensures u.payments[p] == AppendEvent(t.payments[p], AcceptDraft(input))
    ensures var row, id := t.payments[p], t.payments[p].reservation.invoiceId;
            && u.payments[p].reservation == row.reservation && u.payments[p].attempt == row.attempt
            && u.payments[p].events == row.events + [AcceptDraft(input)]
            && HeldInvoices(u.payments[p]) == HeldInvoices(row)
            && Current(u.payments[p]).Consumed? && !Current(row).Released? && !Current(row).Consumed?
            && id in t.invoices && id in u.invoices && t.invoices[id].invoice.paidAt.None?
            && u.invoices == t.invoices[id := u.invoices[id]]
            && u.invoices[id] == t.invoices[id].(invoice := t.invoices[id].invoice.(paidAt := Some(input.proofStateAt)))
            && t.invoices[id].invoice.createdAt <= input.proofStateAt < t.invoices[id].invoice.expiresAt
            && (Ledger.ValidInvoice(t.invoices[id].invoice) ==> Ledger.ValidInvoice(u.invoices[id].invoice))
            && InvoiceReadable(u.invoices[id].invoice) && InvoiceGrows(t.invoices[id], u.invoices[id])
            && u.invoices[id].invoice.id == t.invoices[id].invoice.id
    ensures p !in t.journals && p in u.journals && u.journals == t.journals[p := u.journals[p]]
    ensures u.proofClaims == t.proofClaims && u.invoiceClaims == t.invoiceClaims
    ensures forall k :: k in t.keys ==> k in u.keys && u.keys[k] == t.keys[k]
    ensures EventKey(input.eventId) in u.keys && u.keys[EventKey(input.eventId)] == p
    ensures AcceptDraft(input).eventId == input.eventId
  {
    var row := t.payments[p];
    AppendFacts(row, AcceptDraft(input));
    AcceptedEchoesInput(t.invoices[row.reservation.invoiceId].invoice, PaymentInputOf(row, p, input));
    assert t.invoices[row.reservation.invoiceId].invoice.paidAt.None?;
    hide Ledger.AcceptInvoicePayment, SnapshotSupports, EvidenceMatchesEffect, EvidenceTimeMatches;
  }

  lemma AcceptRows(t: Tables, p: string, input: AcceptInput, u: Tables)
    requires Sound(t) && AcceptWrites(t, p, input, u)
    ensures RowsSound(u)
  {
    hide *;
    AcceptFacts(t, p, input, u);
    AcceptRowKeeps(t, p, input, u);
    forall q | q in u.payments ensures RowStays(u, q) {
      AcceptRow(t, p, input, u, q);
    }
    RowsFromEach(u);
  }

  ghost predicate RowStays(u: Tables, q: string)
    requires q in u.payments
  {
    HasInvoice(u, u.payments[q]) && RowSound(u.invoices[u.payments[q].reservation.invoiceId], u.payments[q])
  }

  lemma RowsFromEach(u: Tables)
    requires forall q :: q in u.payments ==> RowStays(u, q)
    ensures RowsSound(u)
  {
    hide RowSound;
  }

  lemma AcceptRow(t: Tables, p: string, input: AcceptInput, u: Tables, q: string)
    requires Sound(t) && AcceptWrites(t, p, input, u) && q in u.payments
    ensures RowStays(u, q)
  {
    hide *;
    AcceptFacts(t, p, input, u);
    AcceptRowKeeps(t, p, input, u);
    var id := t.payments[p].reservation.invoiceId;
    RowInInvoice(t, q);
    RowInInvoice(t, p);
    if u.payments[q].reservation.invoiceId == id {
      RowIgnoresPayment(t.invoices[id], u.invoices[id].invoice.paidAt, u.payments[q]);
    }
    RowStaysFromParts(u, q);
  }

  lemma RowStaysFromParts(u: Tables, q: string)
    requires q in u.payments && u.payments[q].reservation.invoiceId in u.invoices
    requires RowSound(u.invoices[u.payments[q].reservation.invoiceId], u.payments[q])
    ensures RowStays(u, q)
  {
    hide RowSound;
  }

  lemma AcceptClaims(t: Tables, p: string, input: AcceptInput, u: Tables)
    requires Sound(t) && AcceptWrites(t, p, input, u)
    ensures ClaimsSound(u)
  {
    hide *;
    SoundParts(t);
    AcceptFacts(t, p, input, u);
    RowWriteClaims(t, u, p);
  }

  lemma PaidInvoiceDiffers(t: Tables, p: string, q: string)
    requires Sound(t) && p in t.payments && q in t.journals
    requires HasInvoice(t, t.payments[p]) && InvoiceOf(t, t.payments[p]).paidAt.None?
    ensures q in t.payments && t.payments[q].reservation.invoiceId != t.payments[p].reservation.invoiceId
    ensures JournalSound(t, q)
  {
    JournalOfPayment(t, q);
    hide Sound, JournalSound;
    JournalPaysInvoice(t, q);
  }

  lemma JournalOfPayment(t: Tables, q: string)
    requires Sound(t) && q in t.journals
    ensures q in t.payments && JournalSound(t, q)
  {
    hide JournalSound;
  }

  lemma JournalPaysInvoice(t: Tables, q: string)
    requires q in t.payments && q in t.journals && JournalSound(t, q)
    ensures HasInvoice(t, t.payments[q]) && InvoiceOf(t, t.payments[q]).paidAt.Some?
    ensures InvoiceOf(t, t.payments[q]).paidAt == Last(t.payments[q].events).snapshotAt
  {
  }

  lemma AcceptAccounts(t: Tables, p: string, input: AcceptInput, u: Tables)
    requires Sound(t) && AcceptWrites(t, p, input, u)
    ensures AccountsSound(u)
  {
    hide *;
    SoundParts(t);
    AcceptFacts(t, p, input, u);
    AcceptedJournalIsSound(t, p, input, u);
    forall q | q in u.journals ensures q in u.payments && JournalSound(u, q) {
      if q != p { OtherJournalStays(t, p, input, u, q); }
    }
    JournalsFromEach(u);
    AcceptPaysInvoices(t, u, p);
    ConsumedHaveJournals(t, u, p);
    AccountsFromParts(u);
  }

  lemma JournalsFromEach(t: Tables)
    requires forall p :: p in t.journals ==> p in t.payments && JournalSound(t, p)
    ensures JournalsSound(t)
  {
    hide JournalSound;
  }

  lemma AccountsFromParts(t: Tables)
    requires JournalsSound(t) && PaidInvoicesHavePayers(t) && ConsumedAreJournalled(t)
    ensures AccountsSound(t)
  {
  }

  lemma ConsumedHaveJournals(t: Tables, u: Tables, p: string)
    requires AccountsSound(t) && p in u.payments && p in u.journals
    requires u.payments == t.payments[p := u.payments[p]] && u.journals == t.journals[p := u.journals[p]]
    ensures ConsumedAreJournalled(u)
  {
    hide JournalSound;
  }

  lemma AcceptPaysInvoices(t: Tables, u: Tables, p: string)
    requires AccountsSound(t) && p in t.payments && p in u.payments && p in u.journals
    requires u.payments == t.payments[p := u.payments[p]] && u.journals == t.journals[p := u.journals[p]]
    requires u.payments[p].reservation == t.payments[p].reservation
    requires var id := t.payments[p].reservation.invoiceId; id in u.invoices && u.invoices == t.invoices[id := u.invoices[id]]
    ensures PaidInvoicesHavePayers(u)
  {
    hide JournalSound;
    forall i | i in u.invoices && u.invoices[i].invoice.paidAt.Some? ensures exists q :: PaidBy(u, i, q) {
      if i == t.payments[p].reservation.invoiceId {
        assert PaidBy(u, i, p);
      } else {
        var q :| PaidBy(t, i, q);
        assert PaidBy(u, i, q);
      }
    }
  }

  lemma OtherJournalStays(t: Tables, p: string, input: AcceptInput, u: Tables, q: string)
    requires Sound(t) && AcceptWrites(t, p, input, u) && q in u.journals && q != p
    ensures q in u.payments && JournalSound(u, q)
  {
    hide *;
    AcceptFacts(t, p, input, u);
    assert HasInvoice(t, t.payments[p]) && InvoiceOf(t, t.payments[p]).paidAt.None? by { UnpaidInvoice(t, p); }
    PaidInvoiceDiffers(t, p, q);
    JournalHasInvoice(t, q);
    JournalStaysSound(t, u, q);
  }

  lemma UnpaidInvoice(t: Tables, p: string)
    requires p in t.payments && t.payments[p].reservation.invoiceId in t.invoices
    requires t.invoices[t.payments[p].reservation.invoiceId].invoice.paidAt.None?
    ensures HasInvoice(t, t.payments[p]) && InvoiceOf(t, t.payments[p]).paidAt.None?
  {
  }

  lemma JournalHasInvoice(t: Tables, q: string)
    requires q in t.payments && q in t.journals && JournalSound(t, q)
    ensures t.payments[q].reservation.invoiceId in t.invoices
  {
  }

  lemma AcceptedJournalIsSound(t: Tables, p: string, input: AcceptInput, u: Tables)
    requires AcceptWrites(t, p, input, u)
    ensures p in u.payments && p in u.journals && JournalSound(u, p)
  {
    var invoice := InvoiceOf(t, t.payments[p]);
    assert invoice.paidAt.None? && invoice.(paidAt := None) == invoice;
    AppendFacts(t.payments[p], AcceptDraft(input));
    AcceptedEchoesInput(invoice, PaymentInputOf(t.payments[p], p, input));
    hide Ledger.AcceptInvoicePayment, FollowsEffect, SnapshotSupports, AppendEvent;
  }

  /** An accepted payment carries the ids, times and amounts it was accepted with. */
  lemma AcceptedEchoesInput(invoice: Ledger.Invoice, input: Ledger.PaymentInput)
    requires Ledger.AcceptInvoicePayment(invoice, input).Ok?
    ensures var a := Ledger.AcceptInvoicePayment(invoice, input).value;
            && a.invoice == invoice.(paidAt := Some(input.acceptedAt))
            && a.entry.id == input.journalEntryId && a.entry.effectiveAt == input.effectiveAt
            && a.entry.reference == Ledger.Reference(invoice.id, invoice.merchantId, input.operatorId, input.paymentId, input.mode)
            && a.gross == invoice.amount && a.fee == input.fee && a.gross == a.net + a.fee
            && a.entry.postings == Ledger.PostingsOf(Ledger.Split(input.asset, a.gross, a.net, a.fee), invoice.merchantId)
            && invoice.createdAt <= input.acceptedAt < invoice.expiresAt && Ledger.ValidInvoice(a.invoice)
  {
    Ledger.AcceptanceCondition(invoice, input);
  }

  lemma AcceptInvoices(t: Tables, p: string, input: AcceptInput, u: Tables)
    requires Sound(t) && AcceptWrites(t, p, input, u)
    ensures InvoicesSound(u)
  {
    hide *;
    SoundParts(t);
    AcceptFacts(t, p, input, u);
    PaidInvoiceSound(t, u, t.payments[p].reservation.invoiceId);
  }

  lemma PaidInvoiceSound(t: Tables, u: Tables, id: string)
    requires InvoicesSound(t) && id in t.invoices && id in u.invoices && u.invoices == t.invoices[id := u.invoices[id]]
    requires u.invoices[id].invoice.id == t.invoices[id].invoice.id && InvoiceReadable(u.invoices[id].invoice)
    requires Ledger.ValidInvoice(t.invoices[id].invoice) ==> Ledger.ValidInvoice(u.invoices[id].invoice)
    ensures InvoicesSound(u)
  {
    hide Ledger.ValidInvoice, InvoiceReadable;
  }

  lemma AcceptKeys(t: Tables, p: string, input: AcceptInput, u: Tables)
    requires Sound(t) && AcceptWrites(t, p, input, u)
    ensures KeysSound(u)
  {
    hide *;
    SoundParts(t);
    AcceptFacts(t, p, input, u);
    EventWriteKeys(t, u, p, AcceptDraft(input));
  }

  lemma AcceptGrows(t: Tables, p: string, input: AcceptInput, u: Tables)
    requires Sound(t) && AcceptWrites(t, p, input, u)
    ensures TablesGrow(t, u)
  {
    hide *;
    AcceptFacts(t, p, input, u);
    AcceptRowKeeps(t, p, input, u);
    PaidGrows(t, u, p);
  }

  lemma PaidGrows(t: Tables, u: Tables, p: string)
    requires p in t.payments && p in u.payments && u.payments == t.payments[p := u.payments[p]]
    requires Grows(t.payments[p], u.payments[p])
    requires p !in t.journals && p in u.journals && u.journals == t.journals[p := u.journals[p]]
    requires forall k :: k in t.keys ==> k in u.keys && u.keys[k] == t.keys[k]
    requires var id := t.payments[p].reservation.invoiceId;
             && id in t.invoices && id in u.invoices && u.invoices == t.invoices[id := u.invoices[id]]
             && InvoiceGrows(t.invoices[id], u.invoices[id])
    ensures TablesGrow(t, u)
  {
    hide Grows;
    forall q | q in t.payments ensures Grows(t.payments[q], u.payments[q]) {
      if q != p { GrowsReflexive(t.payments[q]); }
    }
  }

  lemma AcceptKeeps(t: Tables, p: string, input: AcceptInput)
    requires Sound(t) && Accept(t, p, input).Ok?
    ensures Preserves(t, Accept(t, p, input).value.tables)
  {
    hide *;
    AcceptShape(t, p, input);
    if EventKey(input.eventId) in t.keys {
      PreservesSame(t);
    } else {
      var u := Accept(t, p, input).value.tables;
      AcceptRows(t, p, input, u);
      AcceptClaims(t, p, input, u);
      AcceptAccounts(t, p, input, u);
      AcceptInvoices(t, p, input, u);
      AcceptKeys(t, p, input, u);
      AcceptGrows(t, p, input, u);
      PreservesFromParts(t, u);
    }
  }

  // ----------------------------------------------------------------- all calls

  /** Every committed repository call keeps the tables sound and takes nothing back. */
  lemma ApplyKeeps(t: Tables, c: Call)
    requires Sound(t)
    ensures Sound(After(t, c)) && TablesGrow(t, After(t, c))
  {
    if Apply(t, c).Err? {
      GrowIsReflexive(t);
    } else {
      hide Sound, TablesGrow, Apply;
      CallPreserves(t, c);
    }
  }

  lemma CallPreserves(t: Tables, c: Call)
    requires Sound(t) && Apply(t, c).Ok?
    ensures Preserves(t, Apply(t, c).value.tables)
  {
    hide Sound, TablesGrow, CreateInvoice, Reserve, StoreCustody, BeginQuote, RecordAmbiguous, RecordQuote, ObserveQuote,
         ObserveProofs, StartEffect, RecordEvent, Accept, Release, Preserves;
    match c
    case CallCreateInvoice(id, row) => CreateInvoiceKeeps(t, id, row);
    case CallReserve(p, r, k) => ReserveKeeps(t, p, r, k);
    case CallStoreCustody(p, at, n) => StoreCustodyKeeps(t, p, at, n);
    case CallBeginQuote(p, a) => BeginQuoteKeeps(t, p, a);
    case CallRecordAmbiguous(p, id, reason, at) => RecordAmbiguousKeeps(t, p, id, reason, at);
    case CallRecordQuote(p, id, q) => RecordQuoteKeeps(t, p, id, q);
    case CallObserveQuote(p, id, q) => ObserveQuoteKeeps(t, p, id, q);
    case CallObserveProofs(p, r) => ObserveProofsKeeps(t, p, r);
    case CallStartEffect(p, id, e) => StartEffectKeeps(t, p, id, e);
    case CallRecordPending(p, e, id, evidenceAt, at) => RecordEventKeeps(t, p, PendingDraft(e, id, evidenceAt, at));
    case CallRequireAttention(p, e, id, reason, evidenceAt, at) =>
      RecordEventKeeps(t, p, AttentionDraft(e, id, reason, evidenceAt, at));
    case CallAccept(p, input) => AcceptKeeps(t, p, input);
    case CallRelease(p, input) =>
      if input.ReleasePreDispatch? { PreDispatchReleaseKeeps(t, p, input.eventId, input.recordedAt); }
      else { FailureReleaseKeeps(t, p, input); }
  }

  lemma {:induction false} RunIsSound(trace: seq<Tables>, calls: seq<Call>, i: nat)
    requires IsRun(trace, calls) && i < |trace|
    ensures Sound(trace[i])
  {
    if i == 0 {
      assert ProofClaimsOf(NoTables, "") == {};
    } else {
      hide Sound, After;
      RunIsSound(trace, calls, i - 1);
      ApplyKeeps(trace[i - 1], calls[i - 1]);
    }
  }

  lemma {:induction false} RunGrows(trace: seq<Tables>, calls: seq<Call>, i: nat, j: nat)
    requires IsRun(trace, calls) && i <= j < |trace|
    ensures TablesGrow(trace[i], trace[j]) && Sound(trace[j])
    decreases j
  {
    hide Sound, After, TablesGrow;
    RunIsSound(trace, calls, j);
    if i == j {
      GrowIsReflexive(trace[i]);
    } else {
      RunGrows(trace, calls, i, j - 1);
      ApplyKeeps(trace[j - 1], calls[j - 1]);
      GrowIsTransitive(trace[i], trace[j - 1], trace[j]);
    }
  }
}
