/**
 * The main promises of the payment tables, stated of every run of the
 * repository calls: what is always read back, and how invoices, proofs and
 * journals stand to each other.
 */
module MeltResults {
  import opened MeltRecords
  import opened MeltStore
  import opened MeltInvariants
  import opened MeltCalls
  import opened MeltTheorems
  import opened MeltAccounting
  import ProofHistory

  // --------------------------------------------------- a payment's first row

  lemma EarlyCallAddsBlank(t: Tables, c: Call, p: string)
    requires Apply(t, c).Ok? && p !in t.payments && p in After(t, c).payments
    requires c.CallCreateInvoice? || c.CallReserve? || c.CallStoreCustody? || c.CallBeginQuote? || c.CallRecordAmbiguous?
          || c.CallRecordQuote? || c.CallObserveQuote? || c.CallObserveProofs?
    ensures After(t, c).payments[p].effect.None?
  {
    hide HasQuotedEvidence, AttemptMatches, ProofHistory.Persist, NormalReservation, EventsReadable, AttemptReadable,
         MatchesAttempt, ClaimKeys, ProofClaimsOf, SightedAt;
  }

  /** A payment enters the tables without an effect. */
  lemma NewPaymentHasNoEffect(t: Tables, c: Call, p: string)
    requires Sound(t) && p !in t.payments && p in After(t, c).payments
    ensures After(t, c).payments[p].effect.None?
  {
    hide Sound, StartEffect, Accept, Release, RecordEvent, PersistTransition, CreateInvoice, Reserve, StoreCustody, BeginQuote,
         RecordAmbiguous, RecordQuote, ObserveQuote, ObserveProofs;
    if Apply(t, c).Ok? {
      match c
      case CallStartEffect(q, id, e) => StartAddsNothing(t, q, id, e);
      case CallRecordPending(q, e, id, evidenceAt, at) => RecordAddsNothing(t, q, PendingDraft(e, id, evidenceAt, at));
      case CallRequireAttention(q, e, id, reason, evidenceAt, at) =>
        RecordAddsNothing(t, q, AttentionDraft(e, id, reason, evidenceAt, at));
      case CallAccept(q, input) => AcceptAddsNothing(t, q, input);
      case CallRelease(q, input) =>
        ReleaseIsTransition(t, q, input);
        EventCallKeepsSightings(t, q, ReleaseDraft(input));
      case _ => EarlyCallAddsBlank(t, c, p);
    }
  }

  lemma StartAddsNothing(t: Tables, q: string, id: string, e: Effect)
    requires StartEffect(t, q, id, e).Ok?
    ensures StartEffect(t, q, id, e).value.tables.payments.Keys == t.payments.Keys
  {
    StartNeedsPayment(t, q, id, e);
    hide StartEffect;
    if EventKey(id) in t.keys {
      StartReplayShape(t, q, id, e);
    } else {
      StartConditions(t, q, id, e);
      StartShape(t, q, id, e);
    }
  }

  lemma RecordAddsNothing(t: Tables, q: string, draft: Event)
    requires RecordEvent(t, q, draft).Ok?
    ensures RecordEvent(t, q, draft).value.tables.payments.Keys == t.payments.Keys
  {
    hide PersistTransition;
    EventCallKeepsSightings(t, q, draft);
  }

  lemma AcceptAddsNothing(t: Tables, q: string, input: AcceptInput)
    requires Sound(t) && Accept(t, q, input).Ok?
    ensures Accept(t, q, input).value.tables.payments.Keys == t.payments.Keys
  {
    hide Sound, Accept;
    AcceptShape(t, q, input);
    if EventKey(input.eventId) !in t.keys {
      AcceptFacts(t, q, input, Accept(t, q, input).value.tables);
      hide AcceptWrites;
    }
  }

  // ------------------------------------------------------ writers and readers

  /**
   * Every state built by committed calls is accepted by the lifecycle reader, provided every quote observation
   * that reports more than UNPAID is strictly later than the dispatch it follows.
   */
  lemma {:induction false} EveryWriteIsReadBack(trace: seq<Tables>, calls: seq<Call>, i: nat, p: string)
    requires IsRun(trace, calls) && i < |trace| && p in trace[i].payments
    requires forall m :: 0 <= m < i ==> !ObservesAtOrBeforeDispatch(trace[m], calls[m], p)
    ensures Readable(trace[i], p)
  {
    hide Readable, After, ObservesAtOrBeforeDispatch, Sound;
    if i > 0 {
      RunIsSound(trace, calls, i - 1);
      RunIsSound(trace, calls, i);
      assert trace[i] == After(trace[i - 1], calls[i - 1]);
      if p in trace[i - 1].payments {
        EveryWriteIsReadBack(trace, calls, i - 1, p);
        ReadabilityLostOnlyByEarlySighting(trace[i - 1], calls[i - 1], p);
      } else {
        NewPaymentHasNoEffect(trace[i - 1], calls[i - 1], p);
        ReadableBeforeDispatch(trace[i], p);
      }
    }
  }

  /** Without the proviso: a payment is readable exactly when its last observation up to the dispatch is UNPAID. */
  lemma ReadableExactlyWhen(trace: seq<Tables>, calls: seq<Call>, i: nat, p: string)
    requires IsRun(trace, calls) && i < |trace| && p in trace[i].payments
    ensures Readable(trace[i], p) <==> DispatchQuoteReadable(trace[i].payments[p])
  {
    hide *;
    RunIsSound(trace, calls, i);
    ReadableIffDispatchQuoteUnpaid(trace[i], p);
  }

  // --------------------------------------------------------------- accounting

  /** In every state of every run: exclusive proofs, exclusive effects, paid means consumed, and a balanced ledger. */
  lemma AccountsAlwaysHold(trace: seq<Tables>, calls: seq<Call>, i: nat)
    requires IsRun(trace, calls) && i < |trace|
    ensures forall p, q :: DistinctUnreleased(trace[i], p, q) ==>
              ClaimKeys(trace[i].payments[p]) !! ClaimKeys(trace[i].payments[q])
    ensures forall p, q :: DistinctUnreleased(trace[i], p, q) && SameInvoice(trace[i], p, q) ==>
              trace[i].payments[p].effect.None? || trace[i].payments[q].effect.None?
    ensures forall inv :: inv in trace[i].invoices ==>
              (trace[i].invoices[inv].invoice.paidAt.Some? <==> exists p :: Settles(trace[i], inv, p))
    ensures forall inv, p, q :: inv in trace[i].invoices && Settles(trace[i], inv, p) && Settles(trace[i], inv, q) ==> p == q
    ensures Sum(Debits(trace[i])) == Sum(Credits(trace[i])) == Sum(PaidAmounts(trace[i]))
  {
    RunIsSound(trace, calls, i);
    LedgerBalances(trace, calls, i);
    hide IsRun, Sound, Sum, Debits, Credits, PaidAmounts, ClaimKeys, Settles;
    var t := trace[i];
    forall p, q | DistinctUnreleased(t, p, q)
      ensures ClaimKeys(t.payments[p]) !! ClaimKeys(t.payments[q])
      ensures SameInvoice(t, p, q) ==> t.payments[p].effect.None? || t.payments[q].effect.None?
    {
      UnreleasedProofsAreDisjoint(t, p, q);
      if SameInvoice(t, p, q) && t.payments[p].effect.Some? && t.payments[q].effect.Some? { OneUnreleasedEffectPerInvoice(t, p, q); }
    }
    forall inv | inv in t.invoices
      ensures t.invoices[inv].invoice.paidAt.Some? <==> exists p :: Settles(t, inv, p)
      ensures forall p, q :: Settles(t, inv, p) && Settles(t, inv, q) ==> p == q
    {
      PaidIffOnePaymentConsumed(t, inv);
    }
  }

  predicate DistinctUnreleased(t: Tables, p: string, q: string) {
    p in t.payments && q in t.payments && p != q
    && !Current(t.payments[p]).Released? && !Current(t.payments[q]).Released?
  }

  predicate SameInvoice(t: Tables, p: string, q: string)
    requires p in t.payments && q in t.payments
  {
    t.payments[p].reservation.invoiceId == t.payments[q].reservation.invoiceId
  }
}
