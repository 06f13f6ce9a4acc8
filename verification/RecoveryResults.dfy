/**
 * What one recovery comes to, as a table over the operator's two answers: the
 * event it appends, the tables it leaves and the terminal result it returns.
 */
module RecoveryResults {
  import opened Outcomes
  import opened MeltRecords
  import opened MeltStore
  import opened MeltRows
  import opened MeltInvariants
  import opened MeltCalls
  import opened MeltTheorems
  import opened MeltCommits
  import opened MeltAcceptance
  import opened MeltReleases
  import opened MeltCoordination
  import opened SoloRuns
  import MeltAccounting
  import ProofHistory

  // ------------------------------------------------------- a melt in doubt

  /** A dispatched melt whose outcome is still open. */
  predicate InDoubt(t: Tables, p: string) {
    && p in t.payments && Readable(t, p) && Active(t.payments[p])
    && t.payments[p].effect.Some? && t.payments[p].effect.value.kind.Melt?
  }

  function ContextOf(row: PaymentRow, p: string): Context
    requires row.effect.Some? && row.events != [] && HasQuotedEvidence(row)
  {
    Context(p, row.effect.value, row.attempt.value.attemptId, StoredQuote(row), row.reservation, Last(row.events).recordedAt)
  }

  lemma InDoubtFacts(t: Tables, p: string)
    requires Sound(t) && InDoubt(t, p)
    ensures var row := t.payments[p];
            && row.events != [] && HasQuotedEvidence(row) && HasInvoice(t, row) && RouteOf(t, row).Some?
            && row.attempt.Some? && AttemptMatches(row, InvoiceOf(t, row))
            && row.attempt.value.request.destination == RouteOf(t, row).value.destination
            && RouteOf(t, row).value.mode.ImmediateConversion?
            && row.outcome.value.terms.quoteId == row.effect.value.kind.reference
            && row.outcome.value.terms.expiry == row.effect.value.kind.referenceExpiresAt
            && row.outcome.value.terms.mintUrl == row.reservation.mintUrl
            && row.outcome.value.recordedAt <= row.effect.value.startedAt < row.outcome.value.terms.expiry
            && row.attempt.value.startedAt <= row.outcome.value.recordedAt
            && row.reservation.reservedAt <= row.effect.value.startedAt
  {
    RowIsSound(t, p);
    hide Sound, Readable, SnapshotsSound, EventsSound, OutcomeSound, AttemptMatches;
  }

  lemma LastIsStored(row: PaymentRow)
    requires HasQuotedEvidence(row)
    ensures row.sightings != [] && LatestQuote(row) == Some(StoredQuote(row))
  {
  }

  /** Recovery takes up every melt in doubt. */
  lemma ContextFound(t: Tables, p: string)
    requires Sound(t) && InDoubt(t, p)
    ensures var row := t.payments[p];
            && row.events != [] && HasQuotedEvidence(row)
            && TerminalOf(t, p).None? && LoadContext(t, p) == Some(ContextOf(row, p))
  {
    hide Sound, Readable, HasQuotedEvidence, LatestQuote;
    InDoubtFacts(t, p);
    LastIsStored(t.payments[p]);
  }

  /** The invoice of a melt in doubt is not paid: the melt itself holds its one claim. */
  lemma InvoiceIsOpen(t: Tables, p: string)
    requires Sound(t) && InDoubt(t, p)
    ensures HasInvoice(t, t.payments[p]) && InvoiceOf(t, t.payments[p]).paidAt.None?
  {
    hide Sound, Readable;
    RowIsSound(t, p);
    var i := t.payments[p].reservation.invoiceId;
    if t.invoices[i].invoice.paidAt.Some? {
      MeltAccounting.PaidIffOnePaymentConsumed(t, i);
      var q :| MeltAccounting.Settles(t, i, q);
      MeltAccounting.ConsumedHasEffect(t, q);
      MeltAccounting.OneUnreleasedEffectPerInvoice(t, p, q);
    }
  }

  // -------------------------------------------------------- the two answers

  /** Answers in order: the quote not before the dispatch, the proofs not before the quote, the clock after everything stored. */
  ghost predicate InOrder(row: PaymentRow, quote: Quote, proofs: ProofHistory.Observation, at: nat)
    requires row.effect.Some? && row.events != []
  {
    && QuoteFits(row, quote) && row.sightings != [] && Last(row.sightings).observedAt <= quote.observedAt
    && row.effect.value.startedAt <= quote.observedAt <= proofs.observedAt <= at
    && (quote.observedAt == row.effect.value.startedAt ==> quote.state.Unpaid?)
    && Last(row.events).recordedAt <= at
    && |proofs.states| == |row.reservation.proofs| && ProofsFit(row, proofs)
  }

  /** The row once both answers are stored. */
  function Evidenced(row: PaymentRow, quote: Quote, proofs: ProofHistory.Observation): PaymentRow {
    WithSighting(row, quote).(snapshots := row.snapshots[proofs.observedAt := proofs.states])
  }

  lemma FitIsAcceptable(row: PaymentRow, p: string, quote: Quote)
    requires row.effect.Some? && row.events != [] && HasQuotedEvidence(row) && row.sightings != []
    requires QuoteFits(row, quote) && Last(row.sightings).observedAt <= quote.observedAt
    ensures AcceptableAnswer(ContextOf(row, p), quote)
    ensures LatestQuote(WithSighting(row, quote)) == Some(quote) && StoredQuote(WithSighting(row, quote)) == quote
    ensures HasQuotedEvidence(WithSighting(row, quote))
  {
    var seen := Sighting(quote.observedAt, quote.state);
    if seen in row.sightings {
      var k :| 0 <= k < |row.sightings| && row.sightings[k] == seen;
      if k < |row.sightings| - 1 {
        SightingsIncrease(row.attempt.value.startedAt, row.outcome.value.terms.expiry, row.outcome.value.recordedAt,
                          row.sightings, k, |row.sightings| - 1);
      }
    } else {
      hide HasQuotedEvidence;
      ExtendedEvidence(row, seen);
    }
  }

  /** Storing the quote keeps the melt in doubt. */
  lemma QuoteIsStored(t: Tables, p: string, quote: Quote)
    requires Sound(t) && InDoubt(t, p) && QuoteFits(t.payments[p], quote)
    requires t.payments[p].effect.value.startedAt < quote.observedAt
          || (t.payments[p].effect.value.startedAt == quote.observedAt && quote.state.Unpaid?)
    ensures var row := t.payments[p];
            var u := WithRow(t, p, WithSighting(row, quote));
            && row.attempt.Some? && Sound(u) && InDoubt(u, p)
            && ObserveQuote(t, p, row.attempt.value.attemptId, quote).Ok?
            && ObserveQuote(t, p, row.attempt.value.attemptId, quote).value.tables == u
  {
    hide Sound, Readable, ObserveQuote, QuoteFits, HasQuotedEvidence;
    InDoubtFacts(t, p);
    var id := t.payments[p].attempt.value.attemptId;
    ObservesExactlyWhen(t, p, id, quote);
    var c := CallObserveQuote(p, id, quote);
    assert After(t, c) == WithRow(t, p, WithSighting(t.payments[p], quote));
    ApplyKeeps(t, c) by { hide *; }
    ReadabilityLostOnlyByEarlySighting(t, c, p) by { hide *; }
  }

  /** Storing the proof states keeps the melt in doubt. */
  lemma ProofsAreStored(t: Tables, p: string, proofs: ProofHistory.Observation, ctx: Context)
    requires Sound(t) && InDoubt(t, p) && ProofsFit(t.payments[p], proofs)
    requires ctx.reservation == t.payments[p].reservation && |proofs.states| == |t.payments[p].reservation.proofs|
    requires t.payments[p].reservation.reservedAt <= proofs.observedAt
    ensures var row := t.payments[p];
            var u := WithRow(t, p, row.(snapshots := row.snapshots[proofs.observedAt := proofs.states]));
            && Sound(u) && InDoubt(u, p)
            && ObserveProofs(t, p, ReportFor(ctx, proofs)).Ok? && ObserveProofs(t, p, ReportFor(ctx, proofs)).value.tables == u
  {
    hide Sound, Readable, ObserveProofs, ProofsFit;
    var report := ReportFor(ctx, proofs);
    ObservesProofsExactlyWhen(t, p, report);
    var c := CallObserveProofs(p, report);
    ApplyKeeps(t, c) by { hide *; }
    ReadabilityLostOnlyByEarlySighting(t, c, p) by { hide *; }
  }

  // ------------------------------------------------------------- the steps

  lemma RecoverStep(t: Tables, a: Activity, env: Environment)
    requires Complete(env) && !a.DispatchStart? && !a.DispatchPrepared? && !a.DispatchAuthorized? && !a.Ended?
    ensures AnswerFits(a, AnswerTo(a, env))
    ensures StepSolo(Solo(t, a), env) == StepRecover(Solo(t, a), 0, a, AnswerTo(a, env))
  {
    hide StepRecover, StepDispatch;
    AnswersFit(a, env);
  }

  lemma StartLeads(t: Tables, p: string, ctx: Context, env: Environment)
    requires Complete(env) && TerminalOf(t, p).None? && LoadContext(t, p) == Some(ctx)
    ensures Leads(t, RecoverStart(p), env, t, RecoverCheckQuote(ctx))
  {
    hide TerminalOf, LoadContext, StepSolo;
    RecoverStep(t, RecoverStart(p), env);
  }

  lemma QuoteAnswerLeads(t: Tables, ctx: Context, env: Environment)
    requires Complete(env) && env.quote.QuoteAnswer? && AcceptableAnswer(ctx, env.quote.quote)
    ensures Leads(t, RecoverCheckQuote(ctx), env, t, RecoverStoreQuote(ctx, env.quote.quote))
  {
    hide AcceptableAnswer, StepSolo;
    RecoverStep(t, RecoverCheckQuote(ctx), env);
  }

  lemma StoredQuoteLeads(t: Tables, ctx: Context, quote: Quote, env: Environment)
    requires Complete(env) && ObserveQuote(t, ctx.p, ctx.attemptId, quote).Ok?
    requires var u := ObserveQuote(t, ctx.p, ctx.attemptId, quote).value.tables;
             ctx.p in u.payments && LatestQuote(u.payments[ctx.p]) == Some(quote)
    ensures Leads(t, RecoverStoreQuote(ctx, quote), env, ObserveQuote(t, ctx.p, ctx.attemptId, quote).value.tables,
                  RecoverCheckProofs(ctx, quote))
  {
    hide ObserveQuote, LatestQuote, StepSolo;
    RecoverStep(t, RecoverStoreQuote(ctx, quote), env);
  }

  lemma ProofAnswerLeads(t: Tables, ctx: Context, quote: Quote, env: Environment)
    requires Complete(env) && env.proofs.ProofAnswer? && |env.proofs.proofs.states| == |ctx.reservation.proofs|
    ensures Leads(t, RecoverCheckProofs(ctx, quote), env, t, RecoverStoreProofs(ctx, quote, env.proofs.proofs))
  {
    hide StepSolo;
    RecoverStep(t, RecoverCheckProofs(ctx, quote), env);
  }

  lemma StoredProofsLead(t: Tables, ctx: Context, quote: Quote, proofs: ProofHistory.Observation, env: Environment)
    requires Complete(env) && ObserveProofs(t, ctx.p, ReportFor(ctx, proofs)).Ok?
    ensures Leads(t, RecoverStoreProofs(ctx, quote, proofs), env, ObserveProofs(t, ctx.p, ReportFor(ctx, proofs)).value.tables,
                  RecoverDecide(ctx, quote, proofs))
  {
    hide ObserveProofs, ReportFor, StepSolo;
    RecoverStep(t, RecoverStoreProofs(ctx, quote, proofs), env);
  }

  /** Both answers in order bring a recovery to its decision, on tables that hold them. */
  lemma AnswersLead(t: Tables, p: string, env: Environment, u: Tables, r: Option<TerminalResult>)
    requires Sound(t) && InDoubt(t, p) && Complete(env) && env.quote.QuoteAnswer? && env.proofs.ProofAnswer?
    requires t.payments[p].events != [] && HasQuotedEvidence(t.payments[p])
    requires InOrder(t.payments[p], env.quote.quote, env.proofs.proofs, env.decidedAt)
    requires Ends(WithRow(t, p, Evidenced(t.payments[p], env.quote.quote, env.proofs.proofs)),
                  RecoverDecide(ContextOf(t.payments[p], p), env.quote.quote, env.proofs.proofs), env, u, p, r)
    ensures Ends(t, RecoverStart(p), env, u, p, r)
  {
    hide Sound, Readable, Leads, Ends, HasQuotedEvidence, QuoteFits, ProofsFit, ObserveQuote, ObserveProofs, LatestQuote, AcceptableAnswer,
         LoadContext, TerminalOf;
    var row, quote, proofs, ctx := t.payments[p], env.quote.quote, env.proofs.proofs, ContextOf(t.payments[p], p);
    ContextFound(t, p);
    FitIsAcceptable(row, p, quote);
    InDoubtReserved(t, p);
    var t1 := WithRow(t, p, WithSighting(row, quote));
    QuoteIsStored(t, p, quote);
    var t2 := WithRow(t, p, Evidenced(row, quote, proofs));
    ProofsStillFit(row, quote, proofs);
    ProofsAreStored(t1, p, proofs, ctx);
    assert WithRow(t1, p, t1.payments[p].(snapshots := row.snapshots[proofs.observedAt := proofs.states])) == t2;
    StoredProofsLead(t1, ctx, quote, proofs, env);
    EndsLater(t1, RecoverStoreProofs(ctx, quote, proofs), env, t2, RecoverDecide(ctx, quote, proofs), u, p, r);
    ProofAnswerLeads(t1, ctx, quote, env);
    EndsLater(t1, RecoverCheckProofs(ctx, quote), env, t1, RecoverStoreProofs(ctx, quote, proofs), u, p, r);
    StoredQuoteLeads(t, ctx, quote, env);
    EndsLater(t, RecoverStoreQuote(ctx, quote), env, t1, RecoverCheckProofs(ctx, quote), u, p, r);
    QuoteAnswerLeads(t, ctx, env);
    EndsLater(t, RecoverCheckQuote(ctx), env, t, RecoverStoreQuote(ctx, quote), u, p, r);
    StartLeads(t, p, ctx, env);
    EndsLater(t, RecoverStart(p), env, t, RecoverCheckQuote(ctx), u, p, r);
  }

  lemma ProofsStillFit(row: PaymentRow, quote: Quote, proofs: ProofHistory.Observation)
    requires ProofsFit(row, proofs)
    ensures ProofsFit(WithSighting(row, quote), proofs)
  {
    hide ProofHistory.HasRegression;
  }

  lemma InDoubtReserved(t: Tables, p: string)
    requires Sound(t) && InDoubt(t, p)
    ensures p in t.payments && t.payments[p].effect.Some? && t.payments[p].reservation.reservedAt <= t.payments[p].effect.value.startedAt
    ensures t.payments[p].attempt.Some?
  {
    hide Sound, Readable;
    InDoubtFacts(t, p);
  }

  // ---------------------------------------------------------- the last steps

  /** The context of a recovery that found this payment, possibly before its answers were stored. */
  predicate Carries(row: PaymentRow, p: string, ctx: Context)
    requires row.effect.Some? && row.events != []
  {
    ctx.p == p && ctx.effect == row.effect.value && ctx.reservation == row.reservation && ctx.latestRecordedAt == Last(row.events).recordedAt
  }

  /** The payment has exactly one event more, of this state and evidence. */
  predicate Appended(row: PaymentRow, u: Tables, p: string, state: State, evidence: Evidence, evidenceAt: nat, at: nat) {
    && p in u.payments && u.payments[p].events != []
    && var e := Last(u.payments[p].events);
       && u.payments[p] == row.(events := row.events + [e], custodyAt := u.payments[p].custodyAt)
       && e.state == state && e.evidence == Some(evidence) && e.evidenceAt == Some(evidenceAt) && e.recordedAt == at
  }

  lemma AttentionStep(t: Tables, ctx: Context, why: AttentionReason, evidenceAt: nat, known: Option<nat>, env: Environment)
    requires Complete(env)
    requires var at := if known.Some? then known.value else env.attendedAt;
             && ctx.effect.startedAt <= evidenceAt <= at && ctx.latestRecordedAt <= at
             && RecordEvent(t, ctx.p, AttentionDraft(ctx.effect.effectId, EvidenceId(ReasonText(why), ctx, evidenceAt),
                                                     why, evidenceAt, at)).Ok?
    ensures var at := if known.Some? then known.value else env.attendedAt;
            var draft := AttentionDraft(ctx.effect.effectId, EvidenceId(ReasonText(why), ctx, evidenceAt), why, evidenceAt, at);
            Ends(t, RecoverAttention(ctx, why, evidenceAt, known), env, RecordEvent(t, ctx.p, draft).value.tables, ctx.p, None)
  {
    hide RecordEvent, AttentionDraft, EvidenceId, ReasonText, StepSolo, Ends;
    var a := RecoverAttention(ctx, why, evidenceAt, known);
    RecoverStep(t, a, env);
    var at := if known.Some? then known.value else env.attendedAt;
    var draft := AttentionDraft(ctx.effect.effectId, EvidenceId(ReasonText(why), ctx, evidenceAt), why, evidenceAt, at);
    EndsNow(t, a, env, RecordEvent(t, ctx.p, draft).value.tables, ctx.p, None);
  }

  /** A recovery that turns to attention appends its event, with its reason and the time of its evidence. */
  lemma AttentionEnds(t: Tables, p: string, ctx: Context, why: AttentionReason, evidenceAt: nat, known: Option<nat>, env: Environment)
    returns (u: Tables)
    requires Sound(t) && InDoubt(t, p) && Complete(env) && |t.payments[p].events| < MAX_EVENTS
    requires t.payments[p].events != [] && Carries(t.payments[p], p, ctx)
    requires var at := if known.Some? then known.value else env.attendedAt;
             ctx.effect.startedAt <= evidenceAt <= at && ctx.latestRecordedAt <= at
    requires EventKey(EvidenceId(ReasonText(why), ctx, evidenceAt)) !in t.keys
    ensures Ends(t, RecoverAttention(ctx, why, evidenceAt, known), env, u, p, None)
    ensures Appended(t.payments[p], u, p, NeedsAttention, Attention(why), evidenceAt,
                     if known.Some? then known.value else env.attendedAt)
  {
    hide Sound, Readable, RecordEvent, EvidenceId, ReasonText, Ends;
    var at := if known.Some? then known.value else env.attendedAt;
    var id := EvidenceId(ReasonText(why), ctx, evidenceAt);
    AttendsExactlyWhenAllowed(t, p, ctx.effect.effectId, id, why, evidenceAt, at);
    u := After(t, CallRequireAttention(p, ctx.effect.effectId, id, why, evidenceAt, at));
    AttentionStep(t, ctx, why, evidenceAt, known, env);
  }

  /** A refused write of a melt still in doubt turns to attention. */
  lemma ReloadEnds(t: Tables, p: string, ctx: Context, evidenceAt: nat, known: Option<nat>, env: Environment) returns (u: Tables)
    requires Sound(t) && InDoubt(t, p) && Complete(env) && |t.payments[p].events| < MAX_EVENTS
    requires t.payments[p].events != [] && Carries(t.payments[p], p, ctx)
    requires var at := if known.Some? then known.value else env.attendedAt;
             ctx.effect.startedAt <= evidenceAt <= at && ctx.latestRecordedAt <= at
    requires EventKey(EvidenceId(ReasonText(OperatorStateUnknown), ctx, evidenceAt)) !in t.keys
    ensures Ends(t, RecoverReload(ctx, evidenceAt, known), env, u, p, None)
    ensures Appended(t.payments[p], u, p, NeedsAttention, Attention(OperatorStateUnknown), evidenceAt,
                     if known.Some? then known.value else env.attendedAt)
  {
    hide Sound, Readable, RecordEvent, EvidenceId, ReasonText, Ends, TerminalOf, StepSolo;
    u := AttentionEnds(t, p, ctx, OperatorStateUnknown, evidenceAt, known, env);
    NotTerminalInDoubt(t, p);
    RecoverStep(t, RecoverReload(ctx, evidenceAt, known), env);
    EndsLater(t, RecoverReload(ctx, evidenceAt, known), env, t, RecoverAttention(ctx, OperatorStateUnknown, evidenceAt, known), u, p, None);
  }

  lemma NotTerminalInDoubt(t: Tables, p: string)
    requires InDoubt(t, p)
    ensures TerminalOf(t, p).None?
  {
    hide Readable;
  }

  lemma AcceptStep(t: Tables, ctx: Context, quote: Quote, proofs: ProofHistory.Observation, at: nat, env: Environment)
    requires Complete(env)
    ensures var done := Accept(t, ctx.p, AcceptanceFor(ctx, quote, proofs, at));
            if done.Ok? then
              ctx.p in done.value.tables.journals ==>
                Ends(t, RecoverAccept(ctx, quote, proofs, at), env, done.value.tables, ctx.p,
                     Some(Accepted(done.value.tables.journals[ctx.p])))
            else Leads(t, RecoverAccept(ctx, quote, proofs, at), env, t, RecoverReload(ctx, proofs.observedAt, Some(at)))
  {
    hide Accept, AcceptanceFor, StepSolo, Ends;
    var a, done := RecoverAccept(ctx, quote, proofs, at), Accept(t, ctx.p, AcceptanceFor(ctx, quote, proofs, at));
    RecoverStep(t, a, env);
    if done.Ok? && ctx.p in done.value.tables.journals {
      EndsNow(t, a, env, done.value.tables, ctx.p, Some(Accepted(done.value.tables.journals[ctx.p])));
    }
  }

  lemma ReleaseStep(t: Tables, ctx: Context, quote: Quote, proofs: ProofHistory.Observation, at: nat, env: Environment)
    requires Complete(env)
    ensures var done := Release(t, ctx.p, ReleaseFor(ctx, quote, proofs, at));
            if done.Ok? then
              Ends(t, RecoverRelease(ctx, quote, proofs, at), env, done.value.tables, ctx.p, Some(ReleasedResult))
            else Leads(t, RecoverRelease(ctx, quote, proofs, at), env, t, RecoverReload(ctx, proofs.observedAt, Some(at)))
  {
    hide Release, ReleaseFor, StepSolo, Ends;
    var a, done := RecoverRelease(ctx, quote, proofs, at), Release(t, ctx.p, ReleaseFor(ctx, quote, proofs, at));
    RecoverStep(t, a, env);
    if done.Ok? { EndsNow(t, a, env, done.value.tables, ctx.p, Some(ReleasedResult)); }
  }

  lemma PendingStep(t: Tables, ctx: Context, quote: Quote, at: nat, env: Environment)
    requires Complete(env)
    requires RecordEvent(t, ctx.p, PendingDraft(ctx.effect.effectId, EvidenceId("pending", ctx, quote.observedAt), quote.observedAt, at)).Ok?
    ensures var draft := PendingDraft(ctx.effect.effectId, EvidenceId("pending", ctx, quote.observedAt), quote.observedAt, at);
            Ends(t, RecoverPending(ctx, quote, at), env, RecordEvent(t, ctx.p, draft).value.tables, ctx.p, None)
  {
    hide RecordEvent, PendingDraft, EvidenceId, StepSolo, Ends;
    var a := RecoverPending(ctx, quote, at);
    RecoverStep(t, a, env);
    var draft := PendingDraft(ctx.effect.effectId, EvidenceId("pending", ctx, quote.observedAt), quote.observedAt, at);
    EndsNow(t, a, env, RecordEvent(t, ctx.p, draft).value.tables, ctx.p, None);
  }

  /** None of the ids this recovery may write is in use. */
  predicate IdsFree(t: Tables, ctx: Context, quote: Quote, proofs: ProofHistory.Observation) {
    && EventKey(RecoveryId("stellar-melt-recovery-accepted", ctx)) !in t.keys
    && EventKey(RecoveryId("stellar-melt-recovery-released", ctx)) !in t.keys
    && EventKey(EvidenceId("pending", ctx, quote.observedAt)) !in t.keys
    && EventKey(EvidenceId(ReasonText(OperatorStateUnknown), ctx, proofs.observedAt)) !in t.keys
    && JournalKey(RecoveryId("stellar-melt-payment", ctx)) !in t.keys
  }

  /** What holds once both answers are stored. */
  predicate Settled(t: Tables, p: string, ctx: Context, quote: Quote, proofs: ProofHistory.Observation, at: nat) {
    && InDoubt(t, p) && t.payments[p].events != [] && |t.payments[p].events| < MAX_EVENTS && Carries(t.payments[p], p, ctx)
    && HasQuotedEvidence(t.payments[p]) && StoredQuote(t.payments[p]) == quote
    && proofs.observedAt in t.payments[p].snapshots && t.payments[p].snapshots[proofs.observedAt] == proofs.states
    && |proofs.states| == |t.payments[p].reservation.proofs|
    && ctx.effect.startedAt <= quote.observedAt <= proofs.observedAt <= at && ctx.latestRecordedAt <= at
    && IdsFree(t, ctx, quote, proofs)
  }

  /** The invoice window is open at the time of the proof states. */
  predicate WindowOpen(t: Tables, p: string, proofs: ProofHistory.Observation)
    requires p in t.payments && HasInvoice(t, t.payments[p])
  {
    InvoiceOf(t, t.payments[p]).createdAt <= proofs.observedAt < InvoiceOf(t, t.payments[p]).expiresAt
  }

  /** The payment is consumed on this evidence, its invoice paid and its journal returned. */
  ghost predicate PaysOut(row: PaymentRow, t: Tables, p: string, quote: Quote, proofs: ProofHistory.Observation, at: nat,
                          u: Tables, r: Option<TerminalResult>)
    requires HasInvoice(t, row)
  {
    && Appended(row, u, p, Consumed, MeltPaid, quote.observedAt, at) && Last(u.payments[p].events).snapshotAt == Some(proofs.observedAt)
    && p in u.journals && r == Some(Accepted(u.journals[p]))
    && u.journals[p].gross == InvoiceOf(t, row).amount && u.journals[p].fee == 0
    && HasInvoice(u, row) && InvoiceOf(u, row) == InvoiceOf(t, row).(paidAt := Some(proofs.observedAt))
    && u.journals[p].invoice == InvoiceOf(u, row)
  }

  /** An acceptance on stored evidence commits exactly in the invoice window. */
  lemma AcceptanceIsAllowed(t: Tables, p: string, ctx: Context, quote: Quote, proofs: ProofHistory.Observation, at: nat)
    requires Sound(t) && Settled(t, p, ctx, quote, proofs, at)
    requires quote.state.Paid? && Uniform(proofs.states, ProofHistory.Spent)
    ensures HasInvoice(t, t.payments[p])
    ensures AcceptAllowed(t, p, AcceptanceFor(ctx, quote, proofs, at)) <==> WindowOpen(t, p, proofs)
  {
    hide Sound, Readable, HasQuotedEvidence, Uniform, RecoveryId;
    InDoubtFacts(t, p);
    InvoiceIsOpen(t, p);
    LastIsStored(t.payments[p]);
    AmountIsPositive(t, p);
  }

  lemma AmountIsPositive(t: Tables, p: string)
    requires Sound(t) && p in t.payments && HasInvoice(t, t.payments[p])
    ensures InvoiceOf(t, t.payments[p]).amount > 0
  {
    hide Sound;
    RowInvoiceIsValid(t, p);
  }

  lemma AcceptanceEnds(t: Tables, p: string, ctx: Context, quote: Quote, proofs: ProofHistory.Observation, at: nat, env: Environment)
    returns (u: Tables, r: Option<TerminalResult>)
    requires Sound(t) && Complete(env) && Settled(t, p, ctx, quote, proofs, at)
    requires quote.state.Paid? && Uniform(proofs.states, ProofHistory.Spent)
    ensures HasInvoice(t, t.payments[p]) && Ends(t, RecoverAccept(ctx, quote, proofs, at), env, u, p, r)
    ensures WindowOpen(t, p, proofs) ==> PaysOut(t.payments[p], t, p, quote, proofs, at, u, r)
    ensures !WindowOpen(t, p, proofs) ==>
              r == None && Appended(t.payments[p], u, p, NeedsAttention, Attention(OperatorStateUnknown), proofs.observedAt, at)
  {
    hide Sound, Readable, HasQuotedEvidence, Uniform, RecoveryId, EvidenceId, ReasonText, Ends, Accept, AcceptAllowed, Leads, StoredQuote;
    var input := AcceptanceFor(ctx, quote, proofs, at);
    AcceptanceIsAllowed(t, p, ctx, quote, proofs, at);
    AcceptsExactlyWhenAllowed(t, p, input);
    AcceptStep(t, ctx, quote, proofs, at, env);
    if WindowOpen(t, p, proofs) {
      u := Accept(t, p, input).value.tables;
      r := Some(Accepted(u.journals[p]));
    } else {
      u := ReloadEnds(t, p, ctx, proofs.observedAt, Some(at), env);
      r := None;
      EndsLater(t, RecoverAccept(ctx, quote, proofs, at), env, t, RecoverReload(ctx, proofs.observedAt, Some(at)), u, p, r);
    }
  }

  /** A release on stored evidence commits exactly when no later snapshot is stored. */
  lemma ReleaseIsAllowed(t: Tables, p: string, ctx: Context, quote: Quote, proofs: ProofHistory.Observation, at: nat)
    requires Sound(t) && Settled(t, p, ctx, quote, proofs, at)
    requires quote.state.Unpaid? && quote.terms.expiry <= quote.observedAt && Uniform(proofs.states, ProofHistory.Unspent)
    ensures ReleaseAllowed(t, p, ReleaseFor(ctx, quote, proofs, at)) <==> IsLatestSnapshot(t.payments[p].snapshots, proofs.observedAt)
  {
    hide Sound, Readable, HasQuotedEvidence, Uniform, RecoveryId, AttemptMatches, IsLatestSnapshot;
    InDoubtFacts(t, p);
    LastIsStored(t.payments[p]);
  }

  lemma ReleaseEnds(t: Tables, p: string, ctx: Context, quote: Quote, proofs: ProofHistory.Observation, at: nat, env: Environment)
    returns (u: Tables, r: Option<TerminalResult>)
    requires Sound(t) && Complete(env) && Settled(t, p, ctx, quote, proofs, at)
    requires quote.state.Unpaid? && quote.terms.expiry <= quote.observedAt && Uniform(proofs.states, ProofHistory.Unspent)
    ensures Ends(t, RecoverRelease(ctx, quote, proofs, at), env, u, p, r)
    ensures IsLatestSnapshot(t.payments[p].snapshots, proofs.observedAt) ==>
              r == Some(ReleasedResult)
              && Appended(t.payments[p], u, p, Released, MeltUnpaidAfterExpiry, quote.observedAt, at)
              && Last(u.payments[p].events).snapshotAt == Some(proofs.observedAt)
    ensures !IsLatestSnapshot(t.payments[p].snapshots, proofs.observedAt) ==>
              r == None && Appended(t.payments[p], u, p, NeedsAttention, Attention(OperatorStateUnknown), proofs.observedAt, at)
  {
    hide Sound, Readable, HasQuotedEvidence, Uniform, RecoveryId, EvidenceId, ReasonText, Ends, Release, ReleaseAllowed, Leads, StoredQuote,
         IsLatestSnapshot, ReleaseWritten;
    var input := ReleaseFor(ctx, quote, proofs, at);
    ReleaseIsAllowed(t, p, ctx, quote, proofs, at);
    ReleasesExactlyWhenAllowed(t, p, input);
    ReleaseStep(t, ctx, quote, proofs, at, env);
    if IsLatestSnapshot(t.payments[p].snapshots, proofs.observedAt) {
      u, r := Release(t, p, input).value.tables, Some(ReleasedResult);
      ReleaseWriteShape(t, p, ReleaseDraft(input));
    } else {
      u := ReloadEnds(t, p, ctx, proofs.observedAt, Some(at), env);
      r := None;
      EndsLater(t, RecoverRelease(ctx, quote, proofs, at), env, t, RecoverReload(ctx, proofs.observedAt, Some(at)), u, p, r);
    }
  }

  lemma PendingEnds(t: Tables, p: string, ctx: Context, quote: Quote, proofs: ProofHistory.Observation, at: nat, env: Environment)
    returns (u: Tables)
    requires Sound(t) && Complete(env) && Settled(t, p, ctx, quote, proofs, at)
    ensures Ends(t, RecoverPending(ctx, quote, at), env, u, p, None)
    ensures Appended(t.payments[p], u, p, PendingOutcome, OperatorPending, quote.observedAt, at)
  {
    hide Sound, Readable, HasQuotedEvidence, RecoveryId, EvidenceId, ReasonText, Ends, RecordEvent, StoredQuote;
    var id := EvidenceId("pending", ctx, quote.observedAt);
    PendsExactlyWhenAllowed(t, p, ctx.effect.effectId, id, quote.observedAt, at);
    u := After(t, CallRecordPending(p, ctx.effect.effectId, id, quote.observedAt, at));
    PendingStep(t, ctx, quote, at, env);
  }

  // ------------------------------------------------------------ the table

  /**
   * The table of recover(), over `row`, the payment with both answers stored: what is appended, by which evidence,
   * and what is returned. Paid and all spent pays out in the invoice window; unpaid at or after expiry and all
   * unspent releases, unless a later snapshot is stored; pending is recorded, unpaid before expiry is not; any other
   * combination asks for attention.
   */
  ghost predicate Resolves(t: Tables, row: PaymentRow, p: string, quote: Quote, proofs: ProofHistory.Observation, at: nat,
                           u: Tables, r: Option<TerminalResult>)
    requires HasInvoice(t, row)
  {
    var invoice := InvoiceOf(t, row);
    var unspent := Uniform(proofs.states, ProofHistory.Unspent);
    if quote.state.Paid? && Uniform(proofs.states, ProofHistory.Spent) && invoice.createdAt <= proofs.observedAt < invoice.expiresAt then
      PaysOut(row, t, p, quote, proofs, at, u, r)
    else if quote.state.Unpaid? && quote.terms.expiry <= quote.observedAt && unspent
            && IsLatestSnapshot(row.snapshots, proofs.observedAt) then
      && r == Some(ReleasedResult) && Appended(row, u, p, Released, MeltUnpaidAfterExpiry, quote.observedAt, at)
      && Last(u.payments[p].events).snapshotAt == Some(proofs.observedAt)
    else if quote.state.Pending? && (unspent || Uniform(proofs.states, ProofHistory.InFlight)) then
      r == None && Appended(row, u, p, PendingOutcome, OperatorPending, quote.observedAt, at)
    else if quote.state.Unpaid? && quote.observedAt < quote.terms.expiry && unspent then
      r == None && p in u.payments && u.payments[p] == row
    else
      r == None && Appended(row, u, p, NeedsAttention, Attention(OperatorStateUnknown), proofs.observedAt, at)
  }

  lemma NotBoth(states: seq<ProofHistory.ProofState>, a: ProofHistory.ProofState, b: ProofHistory.ProofState)
    requires Uniform(states, a) && Uniform(states, b)
    ensures a == b
  {
    assert states[0] == a == b;
  }

  lemma DecideStep(t: Tables, ctx: Context, quote: Quote, proofs: ProofHistory.Observation, env: Environment)
    requires Complete(env)
    requires ctx.effect.startedAt <= quote.observedAt <= proofs.observedAt <= env.decidedAt && ctx.latestRecordedAt <= env.decidedAt
    ensures var a, at := RecoverDecide(ctx, quote, proofs), env.decidedAt;
            match Decide(quote, proofs)
            case DecideAccept => Leads(t, a, env, t, RecoverAccept(ctx, quote, proofs, at))
            case DecideRelease => Leads(t, a, env, t, RecoverRelease(ctx, quote, proofs, at))
            case DecidePending =>
              if quote.state.Pending? then Leads(t, a, env, t, RecoverPending(ctx, quote, at)) else Ends(t, a, env, t, ctx.p, None)
            case DecideAttention =>
              Leads(t, a, env, t, RecoverAttention(ctx, OperatorStateUnknown, proofs.observedAt, Some(at)))
  {
    hide Decide, StepSolo, Ends;
    var a := RecoverDecide(ctx, quote, proofs);
    RecoverStep(t, a, env);
    if Decide(quote, proofs).DecidePending? && !quote.state.Pending? { EndsNow(t, a, env, t, ctx.p, None); }
  }

  /** From the decision on. */
  lemma DecisionEnds(t: Tables, p: string, ctx: Context, quote: Quote, proofs: ProofHistory.Observation, env: Environment)
    returns (u: Tables, r: Option<TerminalResult>)
    requires Sound(t) && Complete(env) && Settled(t, p, ctx, quote, proofs, env.decidedAt)
    ensures Ends(t, RecoverDecide(ctx, quote, proofs), env, u, p, r)
    ensures HasInvoice(t, t.payments[p]) && Resolves(t, t.payments[p], p, quote, proofs, env.decidedAt, u, r)
  {
    hide Sound, Readable, HasQuotedEvidence, Uniform, RecoveryId, EvidenceId, ReasonText, Ends, StoredQuote, Leads, IsLatestSnapshot,
         PaysOut, Appended;
    RowIsSound(t, p);
    var a, at := RecoverDecide(ctx, quote, proofs), env.decidedAt;
    DecideStep(t, ctx, quote, proofs, env);
    if Uniform(proofs.states, ProofHistory.Unspent) && Uniform(proofs.states, ProofHistory.Spent) {
      NotBoth(proofs.states, ProofHistory.Unspent, ProofHistory.Spent);
    }
    match Decide(quote, proofs)
    case DecideAccept =>
      u, r := AcceptanceEnds(t, p, ctx, quote, proofs, at, env);
      EndsLater(t, a, env, t, RecoverAccept(ctx, quote, proofs, at), u, p, r);
    case DecideRelease =>
      u, r := ReleaseEnds(t, p, ctx, quote, proofs, at, env);
      EndsLater(t, a, env, t, RecoverRelease(ctx, quote, proofs, at), u, p, r);
    case DecidePending =>
      u, r := t, None;
      if quote.state.Pending? {
        u := PendingEnds(t, p, ctx, quote, proofs, at, env);
        EndsLater(t, a, env, t, RecoverPending(ctx, quote, at), u, p, r);
      }
    case DecideAttention =>
      u := AttentionEnds(t, p, ctx, OperatorStateUnknown, proofs.observedAt, Some(at), env);
      r := None;
      EndsLater(t, a, env, t, RecoverAttention(ctx, OperatorStateUnknown, proofs.observedAt, Some(at)), u, p, r);
  }

  /** From the decision on, the table holds however the recovery got there. */
  lemma DecisionIsDetermined(t: Tables, p: string, ctx: Context, quote: Quote, proofs: ProofHistory.Observation, env: Environment,
                             after: Tables, r: Option<TerminalResult>)
    requires Sound(t) && Complete(env) && Settled(t, p, ctx, quote, proofs, env.decidedAt)
    requires Ends(t, RecoverDecide(ctx, quote, proofs), env, after, p, r)
    ensures HasInvoice(t, t.payments[p]) && Resolves(t, t.payments[p], p, quote, proofs, env.decidedAt, after, r)
  {
    hide Sound, Readable, HasQuotedEvidence, IdsFree, Ends, Resolves;
    var u, x := DecisionEnds(t, p, ctx, quote, proofs, env);
    EndsOnce(t, RecoverDecide(ctx, quote, proofs), env, after, p, r, u, x);
  }

  /** A melt in doubt with both answers in order, room for one event and unused ids. */
  ghost predicate Resolvable(t: Tables, p: string, quote: Quote, proofs: ProofHistory.Observation, at: nat) {
    && InDoubt(t, p) && t.payments[p].events != [] && |t.payments[p].events| < MAX_EVENTS && HasQuotedEvidence(t.payments[p])
    && HasInvoice(t, t.payments[p])
    && InOrder(t.payments[p], quote, proofs, at) && IdsFree(t, ContextOf(t.payments[p], p), quote, proofs)
  }

  lemma EvidenceSettles(t: Tables, p: string, quote: Quote, proofs: ProofHistory.Observation, at: nat)
    requires Sound(t) && Resolvable(t, p, quote, proofs, at)
    ensures var u := WithRow(t, p, Evidenced(t.payments[p], quote, proofs));
            Sound(u) && Settled(u, p, ContextOf(t.payments[p], p), quote, proofs, at)
  {
    hide Sound, Readable, HasQuotedEvidence, QuoteFits, ProofsFit, ObserveQuote, ObserveProofs, LatestQuote, AcceptableAnswer, RecoveryId,
         EvidenceId, ReasonText;
    var row, ctx := t.payments[p], ContextOf(t.payments[p], p);
    FitIsAcceptable(row, p, quote);
    InDoubtReserved(t, p);
    var t1 := WithRow(t, p, WithSighting(row, quote));
    QuoteIsStored(t, p, quote);
    ProofsStillFit(row, quote, proofs);
    ProofsAreStored(t1, p, proofs, ctx);
    assert WithRow(t1, p, t1.payments[p].(snapshots := row.snapshots[proofs.observedAt := proofs.states]))
           == WithRow(t, p, Evidenced(row, quote, proofs));
    SameQuote(WithSighting(row, quote), Evidenced(row, quote, proofs));
  }

  lemma SameQuote(a: PaymentRow, b: PaymentRow)
    requires HasQuotedEvidence(a) && b == a.(snapshots := b.snapshots)
    ensures HasQuotedEvidence(b) && StoredQuote(b) == StoredQuote(a)
  {
  }

  /**
   * One recovery of a melt in doubt, with both answers in order, does exactly what the table says: the payment it
   * leaves and the terminal result it returns are determined by the quote state, its expiry and the proof states.
   */
  lemma RecoveryResolves(t: Tables, p: string, env: Environment, after: Tables, r: Option<TerminalResult>)
    requires Sound(t) && Complete(env) && env.quote.QuoteAnswer? && env.proofs.ProofAnswer?
    requires Resolvable(t, p, env.quote.quote, env.proofs.proofs, env.decidedAt)
    requires Ends(t, RecoverStart(p), env, after, p, r)
    ensures Resolves(t, Evidenced(t.payments[p], env.quote.quote, env.proofs.proofs), p, env.quote.quote, env.proofs.proofs,
                     env.decidedAt, after, r)
  {
    var quote, proofs := env.quote.quote, env.proofs.proofs;
    var row, ctx := t.payments[p], ContextOf(t.payments[p], p);
    var stored := WithRow(t, p, Evidenced(row, quote, proofs));
    hide Sound, Readable, HasQuotedEvidence, Uniform, RecoveryId, EvidenceId, ReasonText, Ends, StoredQuote, InOrder, Appended, PaysOut, Settled;
    EvidenceSettles(t, p, quote, proofs, env.decidedAt);
    var u, x := DecisionEnds(stored, p, ctx, quote, proofs, env);
    AnswersLead(t, p, env, u, x);
    EndsOnce(t, RecoverStart(p), env, after, p, r, u, x);
    SameInvoices(t, stored, stored.payments[p], p, quote, proofs, env.decidedAt, u, x);
  }

  lemma SameInvoices(t: Tables, s: Tables, row: PaymentRow, p: string, quote: Quote, proofs: ProofHistory.Observation, at: nat,
                     u: Tables, r: Option<TerminalResult>)
    requires s.invoices == t.invoices && HasInvoice(s, row) && Resolves(s, row, p, quote, proofs, at, u, r)
    ensures HasInvoice(t, row) && Resolves(t, row, p, quote, proofs, at, u, r)
  {
    hide Uniform, IsLatestSnapshot, Appended;
  }

  // ------------------------------------------- answers that do not come, or do not fit

  /** The quote answer contradicts what is stored: other terms, an older time, or another state at the same time. */
  predicate Contradicted(row: PaymentRow, quote: Quote)
    requires HasQuotedEvidence(row) && row.sightings != []
  {
    || quote.terms != row.outcome.value.terms || quote.observedAt < Last(row.sightings).observedAt
    || (quote.observedAt == Last(row.sightings).observedAt && quote.state != Last(row.sightings).state)
  }

  /** PAID, once seen, is taken back by a later answer. */
  predicate Withdrawn(row: PaymentRow, quote: Quote)
    requires row.sightings != []
  {
    Last(row.sightings).state.Paid? && !quote.state.Paid?
  }

  /** Why a recovery cannot come to its decision, the time of the evidence for that, and the row it has stored by then. */
  ghost function Obstacle(row: PaymentRow, env: Environment): Option<(AttentionReason, nat, PaymentRow)>
    requires Complete(env) && HasQuotedEvidence(row) && row.sightings != []
  {
    if env.quote.AnswerFailed? then Some((env.quote.why, env.quote.at, row))
    else
      var quote := env.quote.quote;
      if Contradicted(row, quote) then Some((OperatorResponseInvalid, env.quote.at, row))
      else if Withdrawn(row, quote) then Some((OperatorStateUnknown, quote.observedAt, row))
      else
        var stored := WithSighting(row, quote);
        if env.proofs.AnswerFailed? then Some((env.proofs.why, quote.observedAt, stored))
        else
          var proofs := env.proofs.proofs;
          if |proofs.states| != |row.reservation.proofs| then Some((OperatorResponseInvalid, quote.observedAt, stored))
          else if proofs.observedAt < row.reservation.reservedAt || !ProofsFit(row, proofs) then
            Some((OperatorStateUnknown, Later(quote.observedAt, proofs.observedAt), stored))
          else None
  }

  lemma UncontradictedFits(row: PaymentRow, p: string, quote: Quote)
    requires HasQuotedEvidence(row) && row.sightings != [] && row.effect.Some? && row.events != [] && !Terminal(row)
    ensures AcceptableAnswer(ContextOf(row, p), quote) <==> !Contradicted(row, quote)
    ensures !Contradicted(row, quote) ==>
              Last(row.sightings).observedAt <= quote.observedAt && (QuoteFits(row, quote) <==> !Withdrawn(row, quote))
  {
    hide HasQuotedEvidence;
    var seen := Sighting(quote.observedAt, quote.state);
    if !Contradicted(row, quote) && Withdrawn(row, quote) && seen in row.sightings {
      SightedInSeq(row.sightings, seen);
      NewerIsUnsighted(row, quote.observedAt);
    }
  }

  lemma QuoteFailureLeads(t: Tables, ctx: Context, env: Environment)
    requires Complete(env) && (env.quote.AnswerFailed? || !AcceptableAnswer(ctx, env.quote.quote))
    ensures Leads(t, RecoverCheckQuote(ctx), env, t,
                  RecoverAttention(ctx, if env.quote.AnswerFailed? then env.quote.why else OperatorResponseInvalid, env.quote.at, None))
  {
    hide AcceptableAnswer, StepSolo;
    RecoverStep(t, RecoverCheckQuote(ctx), env);
  }

  lemma RefusedQuoteLeads(t: Tables, ctx: Context, quote: Quote, env: Environment)
    requires Complete(env) && ObserveQuote(t, ctx.p, ctx.attemptId, quote).Err?
    ensures Leads(t, RecoverStoreQuote(ctx, quote), env, t, RecoverReload(ctx, quote.observedAt, None))
  {
    hide ObserveQuote, StepSolo;
    RecoverStep(t, RecoverStoreQuote(ctx, quote), env);
  }

  lemma ProofFailureLeads(t: Tables, ctx: Context, quote: Quote, env: Environment)
    requires Complete(env) && (env.proofs.AnswerFailed? || |env.proofs.proofs.states| != |ctx.reservation.proofs|)
    ensures Leads(t, RecoverCheckProofs(ctx, quote), env, t,
                  RecoverAttention(ctx, if env.proofs.AnswerFailed? then env.proofs.why else OperatorResponseInvalid, quote.observedAt, None))
  {
    hide StepSolo;
    RecoverStep(t, RecoverCheckProofs(ctx, quote), env);
  }

  lemma RefusedProofsLead(t: Tables, ctx: Context, quote: Quote, proofs: ProofHistory.Observation, env: Environment)
    requires Complete(env) && ObserveProofs(t, ctx.p, ReportFor(ctx, proofs)).Err?
    ensures Leads(t, RecoverStoreProofs(ctx, quote, proofs), env, t, RecoverReload(ctx, Later(quote.observedAt, proofs.observedAt), None))
  {
    hide ObserveProofs, ReportFor, StepSolo;
    RecoverStep(t, RecoverStoreProofs(ctx, quote, proofs), env);
  }

  /** A melt in doubt whose recovery meets an obstacle, with clocks after the evidence, room for one event and an unused id. */
  ghost predicate Obstructed(t: Tables, p: string, env: Environment)
    requires Complete(env)
  {
    && InDoubt(t, p) && t.payments[p].events != [] && |t.payments[p].events| < MAX_EVENTS && HasQuotedEvidence(t.payments[p])
    && t.payments[p].sightings != []
    && var row, o := t.payments[p], Obstacle(t.payments[p], env);
       && o.Some? && row.effect.value.startedAt <= o.value.1 <= env.attendedAt && Last(row.events).recordedAt <= env.attendedAt
       && (o.value.2 != row ==>
             row.effect.value.startedAt < env.quote.quote.observedAt
             || (row.effect.value.startedAt == env.quote.quote.observedAt && env.quote.quote.state.Unpaid?))
       && EventKey(EvidenceId(ReasonText(o.value.0), ContextOf(row, p), o.value.1)) !in t.keys
  }

  /** From the first answer on, when the quote answer is the obstacle. */
  lemma QuoteObstacleEnds(t: Tables, p: string, env: Environment) returns (u: Tables)
    requires Sound(t) && Complete(env) && Obstructed(t, p, env)
    requires env.quote.AnswerFailed? || Contradicted(t.payments[p], env.quote.quote) || Withdrawn(t.payments[p], env.quote.quote)
    ensures Ends(t, RecoverCheckQuote(ContextOf(t.payments[p], p)), env, u, p, None)
    ensures var o := Obstacle(t.payments[p], env).value;
            Appended(o.2, u, p, NeedsAttention, Attention(o.0), o.1, env.attendedAt)
  {
    hide Sound, Readable, HasQuotedEvidence, EvidenceId, ReasonText, Ends, Leads, ObserveQuote, QuoteFits, AcceptableAnswer, ProofsFit, Appended;
    var row, ctx, o := t.payments[p], ContextOf(t.payments[p], p), Obstacle(t.payments[p], env).value;
    if env.quote.QuoteAnswer? { UncontradictedFits(row, p, env.quote.quote); }
    if env.quote.AnswerFailed? || Contradicted(row, env.quote.quote) {
      u := AttentionEnds(t, p, ctx, o.0, o.1, None, env);
      QuoteFailureLeads(t, ctx, env);
      EndsLater(t, RecoverCheckQuote(ctx), env, t, RecoverAttention(ctx, o.0, o.1, None), u, p, None);
    } else {
      var quote := env.quote.quote;
      u := ReloadEnds(t, p, ctx, quote.observedAt, None, env);
      ObservesExactlyWhen(t, p, ctx.attemptId, quote);
      RefusedQuoteLeads(t, ctx, quote, env);
      EndsLater(t, RecoverStoreQuote(ctx, quote), env, t, RecoverReload(ctx, quote.observedAt, None), u, p, None);
      QuoteAnswerLeads(t, ctx, env);
      EndsLater(t, RecoverCheckQuote(ctx), env, t, RecoverStoreQuote(ctx, quote), u, p, None);
    }
  }

  /** From the second answer on, on tables that hold the first. */
  lemma ProofObstacleEnds(t: Tables, p: string, ctx: Context, quote: Quote, env: Environment, why: AttentionReason, evidenceAt: nat)
    returns (u: Tables)
    requires Sound(t) && Complete(env) && InDoubt(t, p) && t.payments[p].events != [] && |t.payments[p].events| < MAX_EVENTS
    requires Carries(t.payments[p], p, ctx) && env.quote.QuoteAnswer?
    requires if env.proofs.AnswerFailed? then why == env.proofs.why && evidenceAt == quote.observedAt
             else if |env.proofs.proofs.states| != |t.payments[p].reservation.proofs| then
               why == OperatorResponseInvalid && evidenceAt == quote.observedAt
             else
               && (env.proofs.proofs.observedAt < t.payments[p].reservation.reservedAt || !ProofsFit(t.payments[p], env.proofs.proofs))
               && why == OperatorStateUnknown && evidenceAt == Later(quote.observedAt, env.proofs.proofs.observedAt)
    requires ctx.effect.startedAt <= evidenceAt <= env.attendedAt && ctx.latestRecordedAt <= env.attendedAt
    requires EventKey(EvidenceId(ReasonText(why), ctx, evidenceAt)) !in t.keys
    ensures Ends(t, RecoverCheckProofs(ctx, quote), env, u, p, None)
    ensures Appended(t.payments[p], u, p, NeedsAttention, Attention(why), evidenceAt, env.attendedAt)
  {
    hide Sound, Readable, EvidenceId, ReasonText, Ends, Leads, ObserveProofs, ProofsFit, Appended;
    if env.proofs.AnswerFailed? || |env.proofs.proofs.states| != |t.payments[p].reservation.proofs| {
      u := AttentionEnds(t, p, ctx, why, evidenceAt, None, env);
      ProofFailureLeads(t, ctx, quote, env);
      EndsLater(t, RecoverCheckProofs(ctx, quote), env, t, RecoverAttention(ctx, why, evidenceAt, None), u, p, None);
    } else {
      var proofs := env.proofs.proofs;
      u := ReloadEnds(t, p, ctx, evidenceAt, None, env);
      ObservesProofsExactlyWhen(t, p, ReportFor(ctx, proofs));
      RefusedProofsLead(t, ctx, quote, proofs, env);
      EndsLater(t, RecoverStoreProofs(ctx, quote, proofs), env, t, RecoverReload(ctx, evidenceAt, None), u, p, None);
      ProofAnswerLeads(t, ctx, quote, env);
      EndsLater(t, RecoverCheckProofs(ctx, quote), env, t, RecoverStoreProofs(ctx, quote, proofs), u, p, None);
    }
  }

  lemma FitIgnoresSighting(row: PaymentRow, quote: Quote, proofs: ProofHistory.Observation)
    ensures ProofsFit(row, proofs) <==> ProofsFit(WithSighting(row, quote), proofs)
  {
    hide ProofHistory.HasRegression;
  }

  lemma ObstacleEnds(t: Tables, p: string, env: Environment) returns (u: Tables)
    requires Sound(t) && Complete(env) && Obstructed(t, p, env)
    ensures Ends(t, RecoverCheckQuote(ContextOf(t.payments[p], p)), env, u, p, None)
    ensures var o := Obstacle(t.payments[p], env).value;
            Appended(o.2, u, p, NeedsAttention, Attention(o.0), o.1, env.attendedAt)
  {
    hide Sound, Readable, HasQuotedEvidence, EvidenceId, ReasonText, Ends, Leads, ObserveQuote, QuoteFits, AcceptableAnswer, ProofsFit, Appended,
         LatestQuote, Contradicted, Withdrawn;
    var row, ctx := t.payments[p], ContextOf(t.payments[p], p);
    if env.quote.AnswerFailed? || Contradicted(row, env.quote.quote) || Withdrawn(row, env.quote.quote) {
      u := QuoteObstacleEnds(t, p, env);
    } else {
      var quote, o := env.quote.quote, Obstacle(row, env).value;
      var stored := WithRow(t, p, WithSighting(row, quote));
      UncontradictedFits(row, p, quote);
      QuoteStoredOrThere(t, p, quote);
      FitIsAcceptable(row, p, quote);
      if env.proofs.ProofAnswer? { FitIgnoresSighting(row, quote, env.proofs.proofs); }
      u := ProofObstacleEnds(stored, p, ctx, quote, env, o.0, o.1);
      StoredQuoteLeads(t, ctx, quote, env);
      EndsLater(t, RecoverStoreQuote(ctx, quote), env, stored, RecoverCheckProofs(ctx, quote), u, p, None);
      QuoteAnswerLeads(t, ctx, env);
      EndsLater(t, RecoverCheckQuote(ctx), env, t, RecoverStoreQuote(ctx, quote), u, p, None);
    }
  }

  /** A fitting quote that is new to the row must be later than the dispatch; one already there is stored at once. */
  lemma QuoteStoredOrThere(t: Tables, p: string, quote: Quote)
    requires Sound(t) && InDoubt(t, p) && QuoteFits(t.payments[p], quote)
    requires WithSighting(t.payments[p], quote) != t.payments[p] ==>
               t.payments[p].effect.value.startedAt < quote.observedAt
               || (t.payments[p].effect.value.startedAt == quote.observedAt && quote.state.Unpaid?)
    ensures var row := t.payments[p];
            var u := WithRow(t, p, WithSighting(row, quote));
            && row.attempt.Some? && Sound(u) && InDoubt(u, p)
            && ObserveQuote(t, p, row.attempt.value.attemptId, quote).Ok?
            && ObserveQuote(t, p, row.attempt.value.attemptId, quote).value.tables == u
  {
    hide Sound, Readable, ObserveQuote, QuoteFits;
    InDoubtReserved(t, p);
    if WithSighting(t.payments[p], quote) == t.payments[p] {
      assert WithRow(t, p, t.payments[p]) == t;
      ObservesExactlyWhen(t, p, t.payments[p].attempt.value.attemptId, quote);
    } else {
      QuoteIsStored(t, p, quote);
    }
  }

  /** A recovery that meets an obstacle appends one attention event with the reason of the obstacle and returns nothing. */
  lemma RecoveryAttends(t: Tables, p: string, env: Environment, after: Tables, r: Option<TerminalResult>)
    requires Sound(t) && Complete(env) && Obstructed(t, p, env) && Ends(t, RecoverStart(p), env, after, p, r)
    ensures var o := Obstacle(t.payments[p], env).value;
            r == None && Appended(o.2, after, p, NeedsAttention, Attention(o.0), o.1, env.attendedAt)
  {
    hide Sound, Readable, HasQuotedEvidence, EvidenceId, ReasonText, Ends, Leads, ObserveQuote, Appended, LoadContext, TerminalOf, Obstacle;
    var ctx := ContextOf(t.payments[p], p);
    ContextFound(t, p);
    var u := ObstacleEnds(t, p, env);
    StartLeads(t, p, ctx, env);
    EndsLater(t, RecoverStart(p), env, t, RecoverCheckQuote(ctx), u, p, None);
    EndsOnce(t, RecoverStart(p), env, after, p, r, u, None);
  }

  // --------------------------------------------- payments already settled

  /** A recovery of a settled payment returns what is stored and changes nothing. */
  lemma RecoveryReturnsStored(t: Tables, p: string, env: Environment, after: Tables, r: Option<TerminalResult>)
    requires Sound(t) && Complete(env) && p in t.payments && Readable(t, p) && Ends(t, RecoverStart(p), env, after, p, r)
    ensures Current(t.payments[p]).Consumed? ==> p in t.journals && after == t && r == Some(Accepted(t.journals[p]))
    ensures Current(t.payments[p]).Released? ==> after == t && r == Some(ReleasedResult)
  {
    hide Sound, Readable, Ends, StepSolo;
    if Terminal(t.payments[p]) {
      ConsumedIsJournalled(t, p);
      RecoverStep(t, RecoverStart(p), env);
      EndsNow(t, RecoverStart(p), env, t, p, TerminalOf(t, p));
      EndsOnce(t, RecoverStart(p), env, after, p, r, t, TerminalOf(t, p));
    }
  }

  lemma ConsumedIsJournalled(t: Tables, p: string)
    requires Sound(t) && p in t.payments
    ensures Current(t.payments[p]).Consumed? ==> p in t.journals
  {
    SoundParts(t);
    hide Sound;
  }

  // ------------------------------------------------------- all in one place

  /** What a recovery must come to: the stored result of a settled payment, the table, or attention at an obstacle. */
  ghost predicate RecoveryOutcome(t: Tables, p: string, env: Environment, after: Tables, r: Option<TerminalResult>)
    requires Complete(env)
  {
    && (p in t.payments && Readable(t, p) && Current(t.payments[p]).Consumed? ==>
          p in t.journals && after == t && r == Some(Accepted(t.journals[p])))
    && (p in t.payments && Readable(t, p) && Current(t.payments[p]).Released? ==> after == t && r == Some(ReleasedResult))
    && (env.quote.QuoteAnswer? && env.proofs.ProofAnswer?
        && Resolvable(t, p, env.quote.quote, env.proofs.proofs, env.decidedAt) ==>
          Resolves(t, Evidenced(t.payments[p], env.quote.quote, env.proofs.proofs), p, env.quote.quote, env.proofs.proofs,
                   env.decidedAt, after, r))
    && (Obstructed(t, p, env) ==>
          var o := Obstacle(t.payments[p], env).value;
          r == None && Appended(o.2, after, p, NeedsAttention, Attention(o.0), o.1, env.attendedAt))
  }

  lemma RecoveryIsDetermined(t: Tables, p: string, env: Environment, after: Tables, r: Option<TerminalResult>)
    requires Sound(t) && Complete(env) && Ends(t, RecoverStart(p), env, after, p, r)
    ensures RecoveryOutcome(t, p, env, after, r)
  {
    hide Sound, Ends, Readable, Resolvable, Resolves, Obstructed, Obstacle, Appended;
    if p in t.payments && Readable(t, p) { RecoveryReturnsStored(t, p, env, after, r); }
    if env.quote.QuoteAnswer? && env.proofs.ProofAnswer? && Resolvable(t, p, env.quote.quote, env.proofs.proofs, env.decidedAt) {
      RecoveryResolves(t, p, env, after, r);
    }
    if Obstructed(t, p, env) { RecoveryAttends(t, p, env, after, r); }
  }
}
