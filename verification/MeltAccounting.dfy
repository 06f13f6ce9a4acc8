/**
 * Exclusive use of proofs and invoices, and the balance of the whole ledger,
 * over every run of the repository calls.
 */
module MeltAccounting {
  import opened Outcomes
  import opened MeltRecords
  import opened MeltStore
  import opened MeltRows
  import opened MeltInvariants
  import opened MeltCalls
  import opened MeltTheorems
  import Ledger

  // --------------------------------------------------------- exclusive claims

  lemma HeldProofIsClaimed(t: Tables, p: string, k: (string, nat))
    requires Sound(t) && p in t.payments && !Current(t.payments[p]).Released? && k in ClaimKeys(t.payments[p])
    ensures k in t.proofClaims && t.proofClaims[k] == p
  {
    assert ProofClaimsOf(t, p) == HeldProofs(t.payments[p]);
  }

  /** Unreleased reservations never share a proof. */
  lemma UnreleasedProofsAreDisjoint(t: Tables, p: string, q: string)
    requires Sound(t) && p in t.payments && q in t.payments && p != q
    requires !Current(t.payments[p]).Released? && !Current(t.payments[q]).Released?
    ensures ClaimKeys(t.payments[p]) !! ClaimKeys(t.payments[q])
  {
    hide Sound, ClaimKeys;
    forall k | k in ClaimKeys(t.payments[p]) && k in ClaimKeys(t.payments[q]) ensures false {
      HeldProofIsClaimed(t, p, k);
      HeldProofIsClaimed(t, q, k);
    }
  }

  /** At most one unreleased effect stands against an invoice. */
  lemma OneUnreleasedEffectPerInvoice(t: Tables, p: string, q: string)
    requires Sound(t) && p in t.payments && q in t.payments
    requires !Current(t.payments[p]).Released? && t.payments[p].effect.Some?
    requires !Current(t.payments[q]).Released? && t.payments[q].effect.Some?
    requires t.payments[p].reservation.invoiceId == t.payments[q].reservation.invoiceId
    ensures p == q
  {
    var i := t.payments[p].reservation.invoiceId;
    assert i in InvoiceClaimsOf(t, p) && i in InvoiceClaimsOf(t, q);
  }

  lemma ConsumedHasEffect(t: Tables, p: string)
    requires Sound(t) && p in t.payments && Current(t.payments[p]).Consumed?
    ensures t.payments[p].effect.Some?
  {
    RowIsSound(t, p);
    var row := t.payments[p];
    hide Sound;
    if row.effect.None? { NoEffectMeansReservedOrReleased(row); }
  }

  predicate Settles(t: Tables, i: string, p: string) {
    p in t.payments && t.payments[p].reservation.invoiceId == i && Current(t.payments[p]).Consumed?
  }

  /** An invoice is paid exactly when one of its payments is consumed, and then exactly one is. */
  lemma PaidIffOnePaymentConsumed(t: Tables, i: string)
    requires Sound(t) && i in t.invoices
    ensures t.invoices[i].invoice.paidAt.Some? <==> exists p :: Settles(t, i, p)
    ensures forall p, q :: Settles(t, i, p) && Settles(t, i, q) ==> p == q
  {
    if t.invoices[i].invoice.paidAt.Some? {
      var p :| PaidBy(t, i, p);
      assert JournalSound(t, p);
      assert Settles(t, i, p);
    }
    forall p | Settles(t, i, p) ensures t.invoices[i].invoice.paidAt.Some? {
      JournalOfPayment(t, p);
      JournalPaysInvoice(t, p);
    }
    forall p, q | Settles(t, i, p) && Settles(t, i, q) ensures p == q {
      hide Sound;
      ConsumedHasEffect(t, p);
      ConsumedHasEffect(t, q);
      OneUnreleasedEffectPerInvoice(t, p, q);
    }
  }

  /** A proof that paid an invoice is never held by another payment again, and cannot be reserved again. */
  lemma ConsumedProofsAreNeverReused(trace: seq<Tables>, calls: seq<Call>, i: nat, j: nat, p: string, q: string,
                                     r: Reservation, keysetsObserved: bool)
    requires IsRun(trace, calls) && i <= j < |trace|
    requires p in trace[i].payments && Current(trace[i].payments[p]).Consumed?
    ensures p in trace[j].payments && trace[j].payments[p] == trace[i].payments[p]
    ensures q in trace[j].payments && q != p && !(ClaimKeys(trace[j].payments[q]) !! ClaimKeys(trace[j].payments[p])) ==>
              Current(trace[j].payments[q]).Released?
    ensures q !in trace[j].payments && !(ClaimKeys(BlankRow(r)) !! ClaimKeys(trace[j].payments[p])) ==>
              Reserve(trace[j], q, r, keysetsObserved).Err?
  {
    hide *;
    RunGrows(trace, calls, i, j);
    PaymentsStay(trace[i], trace[j], p);
    TerminalNeverChanges(trace[i].payments[p], trace[j].payments[p]);
    if q in trace[j].payments && q != p && !Current(trace[j].payments[q]).Released? {
      UnreleasedProofsAreDisjoint(trace[j], p, q);
    }
    if q !in trace[j].payments && !(ClaimKeys(BlankRow(r)) !! ClaimKeys(trace[j].payments[p])) {
      TakenProofsCannotBeReserved(trace[j], p, q, r, keysetsObserved);
    }
  }

  lemma TakenProofsCannotBeReserved(t: Tables, p: string, q: string, r: Reservation, keysetsObserved: bool)
    requires Sound(t) && p in t.payments && Current(t.payments[p]).Consumed? && q !in t.payments
    requires !(ClaimKeys(BlankRow(r)) !! ClaimKeys(t.payments[p]))
    ensures Reserve(t, q, r, keysetsObserved).Err?
  {
    hide Sound;
    var k :| k in ClaimKeys(BlankRow(r)) && k in ClaimKeys(t.payments[p]);
    HeldProofIsClaimed(t, p, k);
    if NormalReservation(r).Some? {
      SortingKeepsClaims(r, k);
    }
    hide ClaimKeys, NormalReservation;
  }

  lemma SortingKeepsClaims(r: Reservation, k: (string, nat))
    requires k in ClaimKeys(BlankRow(r))
    ensures k in ClaimKeys(BlankRow(r.(proofs := SortByY(r.proofs))))
  {
    var i :| 0 <= i < |r.proofs| && k == (r.mintUrl, r.proofs[i].y);
    SortedElements(r.proofs);
    assert r.proofs[i] in multiset(SortByY(r.proofs));
    var m :| 0 <= m < |SortByY(r.proofs)| && SortByY(r.proofs)[m] == r.proofs[i];
  }

  function EntriesOf(t: Tables, ps: seq<string>): (entries: seq<Ledger.Entry>)
    requires forall k :: 0 <= k < |ps| ==> ps[k] in t.journals
    ensures |entries| == |ps| && forall k :: 0 <= k < |ps| ==> ps[k] in t.journals && entries[k] == t.journals[ps[k]].entry
  {
    seq(|ps|, k requires 0 <= k < |ps| => (assert ps[k] in t.journals; t.journals[ps[k]].entry))
  }

  /** The journals of distinct payments always form a batch without duplicates. */
  lemma JournalsFormUniqueBatch(t: Tables, ps: seq<string>)
    requires Sound(t)
    requires forall k :: 0 <= k < |ps| ==> ps[k] in t.journals
    requires forall j, k :: 0 <= j < k < |ps| ==> ps[j] != ps[k]
    ensures Ledger.BatchUnique(EntriesOf(t, ps))
  {
    hide Sound;
    forall j, k | 0 <= j < k < |ps|
      ensures t.journals[ps[j]].entry.id != t.journals[ps[k]].entry.id
              && t.journals[ps[j]].entry.reference.invoiceId != t.journals[ps[k]].entry.reference.invoiceId
              && t.journals[ps[j]].entry.reference.paymentId != t.journals[ps[k]].entry.reference.paymentId
    {
      JournalFacts(t, ps[j]);
      JournalFacts(t, ps[k]);
      ConsumedHasEffect(t, ps[j]);
      ConsumedHasEffect(t, ps[k]);
      if t.journals[ps[j]].entry.reference.invoiceId == t.journals[ps[k]].entry.reference.invoiceId {
        OneUnreleasedEffectPerInvoice(t, ps[j], ps[k]);
      }
    }
  }

  lemma InvoiceIsNamed(t: Tables, p: string)
    requires Sound(t) && p in t.payments
    ensures HasInvoice(t, t.payments[p]) && InvoiceOf(t, t.payments[p]).id == t.payments[p].reservation.invoiceId
  {
    RowIsSound(t, p);
    hide RowSound;
  }

  lemma JournalFacts(t: Tables, p: string)
    requires Sound(t) && p in t.journals
    ensures p in t.payments && Current(t.payments[p]).Consumed?
    ensures var a := t.journals[p];
            && a.entry.reference.paymentId == p
            && a.entry.reference.invoiceId == t.payments[p].reservation.invoiceId
            && JournalKey(a.entry.id) in t.keys && t.keys[JournalKey(a.entry.id)] == p
            && HasInvoice(t, t.payments[p]) && a.gross == InvoiceOf(t, t.payments[p]).amount
            && Ledger.Total(a.entry.postings, Ledger.Debit) == a.gross
            && Ledger.Total(a.entry.postings, Ledger.Credit) == a.gross
  {
    hide Sound, JournalSound, Ledger.Total;
    JournalOfPayment(t, p);
    InvoiceIsNamed(t, p);
    SoundJournalFacts(t, p);
  }

  lemma SoundJournalFacts(t: Tables, p: string)
    requires p in t.payments && p in t.journals && JournalSound(t, p)
    requires HasInvoice(t, t.payments[p]) && InvoiceOf(t, t.payments[p]).id == t.payments[p].reservation.invoiceId
    ensures Current(t.payments[p]).Consumed?
    ensures var a := t.journals[p];
            && a.entry.reference.paymentId == p
            && a.entry.reference.invoiceId == t.payments[p].reservation.invoiceId
            && JournalKey(a.entry.id) in t.keys && t.keys[JournalKey(a.entry.id)] == p
            && a.gross == InvoiceOf(t, t.payments[p]).amount
            && Ledger.Total(a.entry.postings, Ledger.Debit) == a.gross
            && Ledger.Total(a.entry.postings, Ledger.Credit) == a.gross
  {
    hide Ledger.AcceptInvoicePayment, Ledger.Total, Ledger.PostingsOf;
    var row, invoice, a := t.payments[p], InvoiceOf(t, t.payments[p]), t.journals[p];
    AcceptedEchoesInput(invoice.(paidAt := None),
      Ledger.PaymentInput(Last(row.events).snapshotAt.value, Ledger.SettlementAsset(SETTLEMENT_ASSET),
                          Last(row.events).recordedAt, a.fee, a.entry.id, row.reservation.operatorId, p,
                          Ledger.ImmediateConversion));
    Ledger.TotalOfSplit(Ledger.Split(Ledger.SettlementAsset(SETTLEMENT_ASSET), a.gross, a.net, a.fee), invoice.merchantId);
  }

  // ---------------------------------------------------------------- totals

  ghost function Sum(m: map<string, nat>): nat
    decreases |m|
  {
    if m == map[] then 0
    else
      var k :| k in m;
      assert |m - {k}| < |m| by { assert m.Keys == (m - {k}).Keys + {k}; }
      m[k] + Sum(m - {k})
  }

  lemma {:induction false} SumTakesAnyKey(m: map<string, nat>, k: string)
    requires k in m
    ensures Sum(m) == m[k] + Sum(m - {k})
    decreases |m|
  {
    var c :| c in m && Sum(m) == m[c] + Sum(m - {c});
    if c != k {
      assert |m - {c}| < |m| by { assert m.Keys == (m - {c}).Keys + {c}; }
      assert |m - {k}| < |m| by { assert m.Keys == (m - {k}).Keys + {k}; }
      SumTakesAnyKey(m - {c}, k);
      SumTakesAnyKey(m - {k}, c);
      assert (m - {c}) - {k} == (m - {k}) - {c};
    }
  }

  lemma SumOfNewKey(m: map<string, nat>, k: string, v: nat)
    requires k !in m
    ensures Sum(m[k := v]) == Sum(m) + v
  {
    SumTakesAnyKey(m[k := v], k);
    assert m[k := v] - {k} == m;
  }

  function Debits(t: Tables): map<string, nat> {
    map p | p in t.journals :: Ledger.Total(t.journals[p].entry.postings, Ledger.Debit)
  }

  function Credits(t: Tables): map<string, nat> {
    map p | p in t.journals :: Ledger.Total(t.journals[p].entry.postings, Ledger.Credit)
  }

  function PaidAmounts(t: Tables): map<string, nat> {
    map i | i in t.invoices && t.invoices[i].invoice.paidAt.Some? :: t.invoices[i].invoice.amount
  }

  ghost predicate Balanced(t: Tables) {
    Sum(Debits(t)) == Sum(PaidAmounts(t)) && Sum(Credits(t)) == Sum(PaidAmounts(t))
  }

  lemma SameAccountsBalanced(t: Tables, u: Tables)
    requires Balanced(t) && u.journals == t.journals && PaidAmounts(u) == PaidAmounts(t)
    ensures Balanced(u)
  {
  }

  lemma NonAcceptKeepsAccounts(t: Tables, c: Call)
    requires Sound(t) && !c.CallAccept?
    ensures After(t, c).journals == t.journals && PaidAmounts(After(t, c)) == PaidAmounts(t)
  {
    hide Sound, StartEffect, Release, PersistTransition, PaidAmounts;
    if Apply(t, c).Ok? {
      match c
      case CallStartEffect(p, id, e) =>
        StartNeedsPayment(t, p, id, e);
        if EventKey(id) in t.keys { StartReplayShape(t, p, id, e); } else { StartConditions(t, p, id, e); StartShape(t, p, id, e); }
        SameInvoicesSamePaid(t, After(t, c));
      case CallRecordPending(p, e, id, evidenceAt, at) =>
        TransitionKeepsAccounts(t, p, PendingDraft(e, id, evidenceAt, at));
        SameInvoicesSamePaid(t, After(t, c));
      case CallRequireAttention(p, e, id, reason, evidenceAt, at) =>
        TransitionKeepsAccounts(t, p, AttentionDraft(e, id, reason, evidenceAt, at));
        SameInvoicesSamePaid(t, After(t, c));
      case CallRelease(p, input) =>
        ReleaseIsTransition(t, p, input);
        TransitionKeepsAccounts(t, p, ReleaseDraft(input));
        SameInvoicesSamePaid(t, After(t, c));
      case CallCreateInvoice(id, row) => NewInvoiceUnpaid(t, id, row);
      case _ =>
        EarlyCallKeepsAccounts(t, c);
        SameInvoicesSamePaid(t, After(t, c));
    }
  }

  lemma SameInvoicesSamePaid(t: Tables, u: Tables)
    requires u.invoices == t.invoices
    ensures PaidAmounts(u) == PaidAmounts(t)
  {
  }

  lemma NewInvoiceUnpaid(t: Tables, id: string, row: InvoiceRow)
    requires CreateInvoice(t, id, row).Ok?
    ensures var u := CreateInvoice(t, id, row).value.tables;
            u.journals == t.journals && PaidAmounts(u) == PaidAmounts(t)
  {
  }

  lemma TransitionKeepsAccounts(t: Tables, p: string, draft: Event)
    requires p in t.payments && PersistTransition(t, p, draft).Ok?
    ensures var u := PersistTransition(t, p, draft).value.tables; u.invoices == t.invoices && u.journals == t.journals
  {
    if EventKey(draft.eventId) in t.keys { TransitionReplayShape(t, p, draft); } else { TransitionShape(t, p, draft); }
    hide PersistTransition;
  }

  lemma EarlyCallKeepsAccounts(t: Tables, c: Call)
    requires Apply(t, c).Ok?
    requires c.CallReserve? || c.CallStoreCustody? || c.CallBeginQuote? || c.CallRecordAmbiguous?
          || c.CallRecordQuote? || c.CallObserveQuote? || c.CallObserveProofs?
    ensures After(t, c).invoices == t.invoices && After(t, c).journals == t.journals
  {
    hide HasQuotedEvidence, AttemptMatches, NormalReservation, EventsReadable, AttemptReadable, LockAttempt, MatchesAttempt,
         ClaimKeys, ProofClaimsOf, SightedAt;
  }

  lemma AcceptBalances(t: Tables, p: string, input: AcceptInput)
    requires Sound(t) && Balanced(t) && Accept(t, p, input).Ok?
    ensures Balanced(Accept(t, p, input).value.tables)
  {
    hide *;
    hide Sum;
    AcceptShape(t, p, input);
    if EventKey(input.eventId) !in t.keys {
      var u := Accept(t, p, input).value.tables;
      AcceptFacts(t, p, input, u);
      AcceptKeeps(t, p, input);
      PreservedIsSound(t, u);
      JournalFacts(u, p);
      AcceptAddsOnce(t, u, p);
    }
  }

  lemma PreservedIsSound(t: Tables, u: Tables)
    requires Preserves(t, u)
    ensures Sound(u)
  {
  }

  lemma AcceptAddsOnce(t: Tables, u: Tables, p: string)
    requires Balanced(t) && p !in t.journals && p in u.journals && u.journals == t.journals[p := u.journals[p]]
    requires p in t.payments && p in u.payments && u.payments[p].reservation == t.payments[p].reservation
    requires var id := t.payments[p].reservation.invoiceId;
             && id in t.invoices && id in u.invoices && t.invoices[id].invoice.paidAt.None?
             && u.invoices == t.invoices[id := u.invoices[id]] && u.invoices[id].invoice.paidAt.Some?
             && HasInvoice(u, u.payments[p]) && u.journals[p].gross == InvoiceOf(u, u.payments[p]).amount
    requires Ledger.Total(u.journals[p].entry.postings, Ledger.Debit) == u.journals[p].gross
    requires Ledger.Total(u.journals[p].entry.postings, Ledger.Credit) == u.journals[p].gross
    ensures Balanced(u)
  {
    hide Sum, Ledger.Total;
    var id := t.payments[p].reservation.invoiceId;
    var amount := u.journals[p].gross;
    NewJournalTotals(t, u, p);
    assert PaidAmounts(u) == PaidAmounts(t)[id := amount];
    hide Debits, Credits;
    SumOfNewKey(Debits(t), p, amount);
    SumOfNewKey(Credits(t), p, amount);
    SumOfNewKey(PaidAmounts(t), id, amount);
  }

  lemma NewJournalTotals(t: Tables, u: Tables, p: string)
    requires p !in t.journals && p in u.journals && u.journals == t.journals[p := u.journals[p]]
    ensures Debits(u) == Debits(t)[p := Ledger.Total(u.journals[p].entry.postings, Ledger.Debit)]
    ensures Credits(u) == Credits(t)[p := Ledger.Total(u.journals[p].entry.postings, Ledger.Credit)]
    ensures p !in Debits(t) && p !in Credits(t)
  {
    hide Ledger.Total;
  }

  /** Over every run, all asset debits equal all credits equal the amounts of the paid invoices. */
  lemma {:induction false} LedgerBalances(trace: seq<Tables>, calls: seq<Call>, i: nat)
    requires IsRun(trace, calls) && i < |trace|
    ensures Sum(Debits(trace[i])) == Sum(Credits(trace[i])) == Sum(PaidAmounts(trace[i]))
  {
    hide Sound, Apply, Sum, Debits, Credits, PaidAmounts;
    if i == 0 {
      assert Debits(NoTables) == map[] && Credits(NoTables) == map[] && PaidAmounts(NoTables) == map[] by { EmptyAccounts(); }
    } else {
      LedgerBalances(trace, calls, i - 1);
      RunIsSound(trace, calls, i - 1);
      CallBalances(trace[i - 1], calls[i - 1]);
    }
  }

  lemma EmptyAccounts()
    ensures Debits(NoTables) == map[] && Credits(NoTables) == map[] && PaidAmounts(NoTables) == map[]
  {
  }

  lemma CallBalances(t: Tables, c: Call)
    requires Sound(t) && Balanced(t)
    ensures Balanced(After(t, c))
  {
    hide Sound, Balanced, Accept;
    if c.CallAccept? {
      if Apply(t, c).Ok? { AcceptBalances(t, c.p, c.acceptInput); }
    } else {
      hide Apply;
      NonAcceptKeepsAccounts(t, c);
      SameAccountsBalanced(t, After(t, c));
    }
  }
}
