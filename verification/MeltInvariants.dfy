/**
 * The invariant of the payment tables over every sequence of repository calls,
 * and the growth relation between an earlier and a later state.
 */
module MeltInvariants {
  import opened Outcomes
  import opened MeltRecords
  import opened MeltStore
  import opened MeltRows
  import Ledger

  // ------------------------------------------------------------- invariant

  predicate InvoicesSound(t: Tables) {
    forall i :: i in t.invoices ==>
      && t.invoices[i].invoice.id == i
      && Ledger.ValidInvoice(t.invoices[i].invoice)
      && InvoiceReadable(t.invoices[i].invoice)
  }

  ghost predicate RowsSound(t: Tables) {
    forall p :: p in t.payments ==>
      HasInvoice(t, t.payments[p]) && RowSound(t.invoices[t.payments[p].reservation.invoiceId], t.payments[p])
  }

  function HeldProofs(row: PaymentRow): set<(string, nat)> {
    if Current(row).Released? then {} else ClaimKeys(row)
  }

  function HeldInvoices(row: PaymentRow): set<string> {
    if Current(row).Released? || row.effect.None? then {} else {row.reservation.invoiceId}
  }

  /** Active claims are held by exactly the unreleased payments, on exactly their proofs and invoice. */
  ghost predicate ClaimsSound(t: Tables) {
    && (forall k :: k in t.proofClaims ==> t.proofClaims[k] in t.payments)
    && (forall i :: i in t.invoiceClaims ==> t.invoiceClaims[i] in t.payments)
    && (forall p :: p in t.payments ==>
          ProofClaimsOf(t, p) == HeldProofs(t.payments[p]) && InvoiceClaimsOf(t, p) == HeldInvoices(t.payments[p]))
  }

  /** A journal is the accounting of its payment's consumed event and of its paid invoice. */
  predicate JournalSound(t: Tables, p: string)
    requires p in t.payments && p in t.journals
  {
    var row := t.payments[p];
    var a := t.journals[p];
    && row.events != [] && HasInvoice(t, row)
    && Last(row.events).state.Consumed? && Last(row.events).snapshotAt.Some?
    && Last(row.events).journalId == Some(a.entry.id)
    && JournalKey(a.entry.id) in t.keys && t.keys[JournalKey(a.entry.id)] == p
    && a.invoice == InvoiceOf(t, row)
    && Ledger.AcceptInvoicePayment(
         InvoiceOf(t, row).(paidAt := None),
         Ledger.PaymentInput(Last(row.events).snapshotAt.value, Ledger.SettlementAsset(SETTLEMENT_ASSET),
                             Last(row.events).recordedAt, a.fee, a.entry.id, row.reservation.operatorId, p,
                             Ledger.ImmediateConversion)) == Ok(a)
  }

  predicate PaidBy(t: Tables, i: string, p: string) {
    p in t.journals && p in t.payments && t.payments[p].reservation.invoiceId == i
  }

  ghost predicate JournalsSound(t: Tables) {
    forall p :: p in t.journals ==> p in t.payments && JournalSound(t, p)
  }

  predicate ConsumedAreJournalled(t: Tables) {
    forall p :: p in t.payments && Current(t.payments[p]).Consumed? ==> p in t.journals
  }

  ghost predicate PaidInvoicesHavePayers(t: Tables) {
    forall i :: i in t.invoices && t.invoices[i].invoice.paidAt.Some? ==> exists p :: PaidBy(t, i, p)
  }

  ghost predicate AccountsSound(t: Tables) {
    JournalsSound(t) && ConsumedAreJournalled(t) && PaidInvoicesHavePayers(t)
  }

  ghost predicate KeysSound(t: Tables) {
    forall p :: p in t.payments ==>
      && (forall k :: 0 <= k < |t.payments[p].events| ==>
            var key := EventKey(t.payments[p].events[k].eventId); key in t.keys && t.keys[key] == p)
      && (t.payments[p].attempt.Some? ==>
            var key := AttemptKey(t.payments[p].attempt.value.attemptId); key in t.keys && t.keys[key] == p)
  }

  ghost predicate Sound(t: Tables) {
    InvoicesSound(t) && RowsSound(t) && ClaimsSound(t) && AccountsSound(t) && KeysSound(t)
  }

  // ---------------------------------------------------------------- growth

  predicate InvoiceGrows(a: InvoiceRow, b: InvoiceRow) {
    && b.(invoice := b.invoice.(paidAt := None)) == a.(invoice := a.invoice.(paidAt := None))
    && (a.invoice.paidAt.Some? ==> b.invoice.paidAt == a.invoice.paidAt)
  }

  /** What no later state takes back. */
  ghost predicate TablesGrow(a: Tables, b: Tables) {
    && (forall i :: i in a.invoices ==> i in b.invoices && InvoiceGrows(a.invoices[i], b.invoices[i]))
    && (forall p :: p in a.payments ==> p in b.payments && Grows(a.payments[p], b.payments[p]))
    && (forall p :: p in a.journals ==> p in b.journals && b.journals[p] == a.journals[p])
    && (forall k :: k in a.keys ==> k in b.keys && b.keys[k] == a.keys[k])
  }

  lemma GrowIsReflexive(t: Tables)
    ensures TablesGrow(t, t)
  {
  }

  lemma GrowIsTransitive(a: Tables, b: Tables, c: Tables)
    requires TablesGrow(a, b) && TablesGrow(b, c)
    ensures TablesGrow(a, c)
  {
    hide Grows, InvoiceGrows;
    forall p | p in a.payments ensures Grows(a.payments[p], c.payments[p]) {
      GrowsIsTransitive(a.payments[p], b.payments[p], c.payments[p]);
    }
    forall i | i in a.invoices ensures InvoiceGrows(a.invoices[i], c.invoices[i]) {
      InvoiceGrowsIsTransitive(a.invoices[i], b.invoices[i], c.invoices[i]);
    }
  }

  lemma InvoiceGrowsIsTransitive(a: InvoiceRow, b: InvoiceRow, c: InvoiceRow)
    requires InvoiceGrows(a, b) && InvoiceGrows(b, c)
    ensures InvoiceGrows(a, c)
  {
  }

  // --------------------------------------------- writes that add no event

  /** Replacing one row by a grown one with the same events and effect, and adding unique keys for it. */
  lemma RowWriteKeeps(t: Tables, p: string, after: PaymentRow, keys: map<Key, string>)
    requires Sound(t) && p in t.payments
    requires var row := t.payments[p];
             && RowSound(t.invoices[row.reservation.invoiceId], after) && Grows(row, after)
             && after.events == row.events && after.effect == row.effect
    requires forall k :: k in t.keys ==> k in keys && keys[k] == t.keys[k]
    requires after.attempt.Some? ==>
               AttemptKey(after.attempt.value.attemptId) in keys && keys[AttemptKey(after.attempt.value.attemptId)] == p
    ensures Sound(WithRow(t, p, after).(keys := keys)) && TablesGrow(t, WithRow(t, p, after).(keys := keys))
  {
    hide *;
    var u := WithRow(t, p, after).(keys := keys);
    WriteFacts(t, p, after, keys);
    GrowsKeepsReservation(t.payments[p], after);
    SoundParts(t);
    RowWriteGrows(t, p, after, keys);
    InvoicesUnchanged(t, u);
    RowHasInvoice(t, p);
    SameInvoice(t, t.payments[p], after);
    RowWriteRows(t, u, p);
    RowHasKeys(t, p);
    RowWriteKeys(t, u, p);
    RowWriteProjections(t, p, after, keys);
    SoundFromParts(u);
  }

  lemma WriteFacts(t: Tables, p: string, after: PaymentRow, keys: map<Key, string>)
    ensures var u := WithRow(t, p, after).(keys := keys);
            u.payments == t.payments[p := after] && u.invoices == t.invoices && u.journals == t.journals
            && u.proofClaims == t.proofClaims && u.invoiceClaims == t.invoiceClaims && u.keys == keys
  {
  }

  lemma GrowsKeepsReservation(a: PaymentRow, b: PaymentRow)
    requires Grows(a, b)
    ensures b.reservation == a.reservation
  {
  }

  lemma SoundParts(t: Tables)
    requires Sound(t)
    ensures InvoicesSound(t) && RowsSound(t) && ClaimsSound(t) && AccountsSound(t) && KeysSound(t)
  {
  }

  lemma SoundFromParts(t: Tables)
    requires InvoicesSound(t) && RowsSound(t) && ClaimsSound(t) && AccountsSound(t) && KeysSound(t)
    ensures Sound(t)
  {
  }

  lemma SameInvoice(t: Tables, a: PaymentRow, b: PaymentRow)
    requires HasInvoice(t, a) && b.reservation == a.reservation
    ensures HasInvoice(t, b)
  {
  }

  lemma RowWriteProjections(t: Tables, p: string, after: PaymentRow, keys: map<Key, string>)
    requires ClaimsSound(t) && AccountsSound(t) && p in t.payments
    requires after.events == t.payments[p].events && after.effect == t.payments[p].effect
    requires after.reservation == t.payments[p].reservation
    requires forall k :: k in t.keys ==> k in keys && keys[k] == t.keys[k]
    ensures ClaimsSound(WithRow(t, p, after).(keys := keys)) && AccountsSound(WithRow(t, p, after).(keys := keys))
  {
    var u := WithRow(t, p, after).(keys := keys);
    HeldByEventsAndEffect(t.payments[p], after);
    hide ClaimsSound, AccountsSound, HeldInvoices, HeldProofs, Current;
    RowWriteClaims(t, u, p);
    RowWriteAccounts(t, u, p);
  }

  lemma HeldByEventsAndEffect(a: PaymentRow, b: PaymentRow)
    requires a.events == b.events && a.effect == b.effect && a.reservation == b.reservation
    ensures HeldInvoices(a) == HeldInvoices(b) && Current(a) == Current(b)
  {
  }

  lemma RowHasInvoice(t: Tables, p: string)
    requires RowsSound(t) && p in t.payments
    ensures HasInvoice(t, t.payments[p]) && RowSound(t.invoices[t.payments[p].reservation.invoiceId], t.payments[p])
  {
  }

  lemma RowHasKeys(t: Tables, p: string)
    requires KeysSound(t) && p in t.payments
    ensures forall k :: 0 <= k < |t.payments[p].events| ==>
              var key := EventKey(t.payments[p].events[k].eventId); key in t.keys && t.keys[key] == p
  {
  }

  lemma InvoicesUnchanged(t: Tables, u: Tables)
    requires InvoicesSound(t) && u.invoices == t.invoices
    ensures InvoicesSound(u)
  {
    hide Ledger.ValidInvoice, InvoiceReadable;
  }

  lemma RowWriteRows(t: Tables, u: Tables, p: string)
    requires RowsSound(t) && p in t.payments && p in u.payments
    requires u.payments == t.payments[p := u.payments[p]] && u.invoices == t.invoices
    requires HasInvoice(t, u.payments[p]) && RowSound(t.invoices[u.payments[p].reservation.invoiceId], u.payments[p])
    ensures RowsSound(u)
  {
    hide RowSound;
  }

  lemma RowWriteKeys(t: Tables, u: Tables, p: string)
    requires KeysSound(t) && p in t.payments && p in u.payments
    requires u.payments == t.payments[p := u.payments[p]]
    requires forall k :: k in t.keys ==> k in u.keys && u.keys[k] == t.keys[k]
    requires forall k :: 0 <= k < |u.payments[p].events| ==>
               var key := EventKey(u.payments[p].events[k].eventId); key in u.keys && u.keys[key] == p
    requires u.payments[p].attempt.Some? ==>
               var key := AttemptKey(u.payments[p].attempt.value.attemptId); key in u.keys && u.keys[key] == p
    ensures KeysSound(u)
  {
  }

  lemma RowWriteGrows(t: Tables, p: string, after: PaymentRow, keys: map<Key, string>)
    requires p in t.payments && Grows(t.payments[p], after)
    requires forall k :: k in t.keys ==> k in keys && keys[k] == t.keys[k]
    ensures TablesGrow(t, WithRow(t, p, after).(keys := keys))
  {
    hide Grows;
    forall q | q in t.payments ensures Grows(t.payments[q], t.payments[q]) {
      GrowsReflexive(t.payments[q]);
    }
  }

  lemma GrowsReflexive(row: PaymentRow)
    ensures Grows(row, row)
  {
  }

  lemma RowWriteClaims(t: Tables, u: Tables, p: string)
    requires ClaimsSound(t) && p in t.payments && p in u.payments
    requires u.payments == t.payments[p := u.payments[p]]
    requires u.proofClaims == t.proofClaims && u.invoiceClaims == t.invoiceClaims
    requires u.payments[p].reservation == t.payments[p].reservation
    requires HeldInvoices(u.payments[p]) == HeldInvoices(t.payments[p])
    requires Current(u.payments[p]).Released? == Current(t.payments[p]).Released?
    ensures ClaimsSound(u)
  {
    forall q | q in u.payments
      ensures ProofClaimsOf(u, q) == HeldProofs(u.payments[q]) && InvoiceClaimsOf(u, q) == HeldInvoices(u.payments[q])
    {
      assert ProofClaimsOf(u, q) == ProofClaimsOf(t, q) && InvoiceClaimsOf(u, q) == InvoiceClaimsOf(t, q);
    }
  }

  /** A journal keeps its meaning while its own payment, invoice and keys stand. */
  lemma JournalStaysSound(t: Tables, u: Tables, q: string)
    requires q in t.payments && q in t.journals && JournalSound(t, q)
    requires q in u.payments && q in u.journals && u.journals[q] == t.journals[q]
    requires u.payments[q].events == t.payments[q].events && u.payments[q].reservation == t.payments[q].reservation
    requires var i := t.payments[q].reservation.invoiceId; i in t.invoices ==> i in u.invoices && u.invoices[i] == t.invoices[i]
    requires forall k :: k in t.keys ==> k in u.keys && u.keys[k] == t.keys[k]
    ensures JournalSound(u, q)
  {
    hide Ledger.AcceptInvoicePayment;
  }

  /** Payers stay payers while payments keep their reservations and journals stay. */
  lemma PayersStay(t: Tables, u: Tables)
    requires PaidInvoicesHavePayers(t)
    requires forall i :: i in u.invoices && u.invoices[i].invoice.paidAt.Some? ==> i in t.invoices && t.invoices[i].invoice.paidAt.Some?
    requires forall q :: q in t.journals ==> q in u.journals
    requires forall q :: q in t.payments ==> q in u.payments && u.payments[q].reservation == t.payments[q].reservation
    ensures PaidInvoicesHavePayers(u)
  {
    forall i | i in u.invoices && u.invoices[i].invoice.paidAt.Some? ensures exists q :: PaidBy(u, i, q) {
      var q :| PaidBy(t, i, q);
      assert PaidBy(u, i, q);
    }
  }

  lemma RowWriteAccounts(t: Tables, u: Tables, p: string)
    requires AccountsSound(t) && p in t.payments && p in u.payments
    requires u.payments == t.payments[p := u.payments[p]]
    requires u.journals == t.journals && u.invoices == t.invoices
    requires forall k :: k in t.keys ==> k in u.keys && u.keys[k] == t.keys[k]
    requires u.payments[p].reservation == t.payments[p].reservation
    requires p in t.journals ==> u.payments[p].events == t.payments[p].events
    requires Current(u.payments[p]).Consumed? ==> Current(t.payments[p]).Consumed?
    ensures AccountsSound(u)
  {
    hide JournalSound;
    forall q | q in u.journals ensures q in u.payments && JournalSound(u, q) {
      JournalStaysSound(t, u, q);
    }
    PayersStay(t, u);
  }

  // ------------------------------------------------------------ reading back

  lemma ClaimKeysCount(row: PaymentRow)
    requires DistinctYs(row.reservation.proofs)
    ensures |ClaimKeys(row)| == |row.reservation.proofs|
  {
    PrefixKeysCount(row.reservation.mintUrl, row.reservation.proofs);
  }

  lemma {:induction false} PrefixKeysCount(mint: string, proofs: seq<Proof>)
    requires DistinctYs(proofs)
    ensures |set i | 0 <= i < |proofs| :: (mint, proofs[i].y)| == |proofs|
  {
    var all := set i | 0 <= i < |proofs| :: (mint, proofs[i].y);
    if proofs == [] {
      assert all == {};
    } else {
      var n := |proofs| - 1;
      var front := proofs[..n];
      var some := set i | 0 <= i < |front| :: (mint, front[i].y);
      PrefixKeysCount(mint, front);
      assert (mint, proofs[n].y) !in some;
      assert all == some + {(mint, proofs[n].y)} by {
        forall k | k in some ensures k in all {
          var i :| 0 <= i < |front| && k == (mint, front[i].y);
          assert k == (mint, proofs[i].y);
        }
        forall k | k in all ensures k in some + {(mint, proofs[n].y)} {
          var i :| 0 <= i < |proofs| && k == (mint, proofs[i].y);
          if i < n { assert k == (mint, front[i].y); }
        }
      }
    }
  }

  lemma ProjectionHolds(t: Tables, p: string)
    requires Sound(t) && p in t.payments
    ensures ProjectionReadable(t, p)
  {
    hide AccountsSound, KeysSound, InvoicesSound;
    var row := t.payments[p];
    assert ReservationSound(t.invoices[row.reservation.invoiceId], row) by { assert RowSound(t.invoices[row.reservation.invoiceId], row); }
    ClaimKeysCount(row);
    hide RowsSound;
  }

  /**
   * Everything written is readable, up to one condition: a payment reads back exactly when the last quote
   * observation at or before its dispatch time is UNPAID.
   */
  lemma ReadableIffDispatchQuoteUnpaid(t: Tables, p: string)
    requires Sound(t) && p in t.payments
    ensures Readable(t, p) <==> DispatchQuoteReadable(t.payments[p])
  {
    hide DispatchQuoteReadable, ProjectionReadable;
    ProjectionHolds(t, p);
    var row := t.payments[p];
    assert RowSound(t.invoices[row.reservation.invoiceId], row);
  }
}
