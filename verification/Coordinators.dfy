/**
 * The two melt coordinators in their own imperative form
 * (cashu-stellar-melt-coordinator.ts, cashu-stellar-melt-recovery-coordinator.ts),
 * run without interruption over the repositories. Each is proved to take the
 * steps of the interleaved system, one activity on its own.
 */
module Coordinators {
  import opened Outcomes
  import opened MeltRecords
  import opened MeltStore
  import opened MeltCoordination
  import opened SoloRuns
  import opened DispatchResults
  import opened RecoveryResults
  import opened MeltInvariants
  import opened AcquirerDatabase
  import opened LifecycleRepositories
  import opened QuoteRepositories
  import opened ReservationRepositories
  import ProofHistory

  // ------------------------------------------------------------------- recovery

  class RecoveryCoordinator {
    const db: Database
    const lifecycles: LifecycleRepository
    const quotes: QuoteRepository
    const proofStates: ProofStateRepository

    constructor (database: Database, l: LifecycleRepository, q: QuoteRepository, s: ProofStateRepository)
      requires l.db == database && q.db == database && s.db == database
      ensures Wired()
    {
      db, lifecycles, quotes, proofStates := database, l, q, s;
    }

    predicate Wired() {
      lifecycles.db == db && quotes.db == db && proofStates.db == db
    }

    /** terminalResult and reloadTerminal. */
    method ReloadTerminal(p: string) returns (r: Option<TerminalResult>)
      requires Wired()
      ensures r == TerminalOf(db.Contents(), p)
    {
      hide Readable;
      if p !in db.payments {
        return None;
      }
      var loaded := lifecycles.LoadLifecycle(p);
      if loaded.Err? {
        return None;
      }
      if loaded.value.state.Released? {
        return Some(ReleasedResult);
      }
      if loaded.value.state.Consumed? && p in db.journals {
        return Some(Accepted(db.journals[p]));
      }
      return None;
    }

    /** recordAttention; a refused write still yields a terminal state that someone else reached. */
    method RecordAttention(ctx: Context, why: AttentionReason, evidenceAt: nat, known: Option<nat>, env: Environment)
      returns (r: Option<TerminalResult>)
      requires Wired() && Complete(env)
      modifies db
      ensures Ends(old(db.Contents()), RecoverAttention(ctx, why, evidenceAt, known), env, db.Contents(), ctx.p, r)
    {
      hide Readable, RecordEvent, TerminalOf, EvidenceId, ReasonText, Finish, Ends;
      ghost var t, a := db.Contents(), RecoverAttention(ctx, why, evidenceAt, known);
      var at := if known.Some? then known.value else env.attendedAt;
      r := None;
      if evidenceAt < ctx.effect.startedAt || at < evidenceAt || at < ctx.latestRecordedAt {
        EndsNow(t, a, env, db.Contents(), ctx.p, r);
        return;
      }
      var draft := AttentionDraft(ctx.effect.effectId, EvidenceId(ReasonText(why), ctx, evidenceAt), why, evidenceAt, at);
      var written := lifecycles.PersistDraft(ctx.p, draft);
      if written.Ok? {
        EndsNow(t, a, env, db.Contents(), ctx.p, r);
        return;
      }
      r := ReloadLast(ctx, env);
      EndsLater(t, a, env, t, RecoverReloadLast(ctx), db.Contents(), ctx.p, r);
    }

    method ReloadLast(ctx: Context, env: Environment) returns (r: Option<TerminalResult>)
      requires Wired() && Complete(env)
      ensures Ends(db.Contents(), RecoverReloadLast(ctx), env, db.Contents(), ctx.p, r)
    {
      hide TerminalOf, Finish, Ends;
      r := ReloadTerminal(ctx.p);
      EndsNow(db.Contents(), RecoverReloadLast(ctx), env, db.Contents(), ctx.p, r);
    }

    /** After a refused store call: the terminal state if there is one, attention otherwise. */
    method ReloadOrAttend(ctx: Context, evidenceAt: nat, known: Option<nat>, env: Environment) returns (r: Option<TerminalResult>)
      requires Wired() && Complete(env)
      modifies db
      ensures Ends(old(db.Contents()), RecoverReload(ctx, evidenceAt, known), env, db.Contents(), ctx.p, r)
    {
      hide TerminalOf, Finish, Ends;
      ghost var t := db.Contents();
      r := ReloadTerminal(ctx.p);
      if r.Some? {
        EndsNow(t, RecoverReload(ctx, evidenceAt, known), env, db.Contents(), ctx.p, r);
        return;
      }
      r := RecordAttention(ctx, OperatorStateUnknown, evidenceAt, known, env);
      EndsLater(t, RecoverReload(ctx, evidenceAt, known), env, t, RecoverAttention(ctx, OperatorStateUnknown, evidenceAt, known),
                db.Contents(), ctx.p, r);
    }

    /** acceptPayment. */
    method AcceptPayment(ctx: Context, quote: Quote, proofs: ProofHistory.Observation, at: nat, env: Environment)
      returns (r: Option<TerminalResult>)
      requires Wired() && Complete(env)
      modifies db
      ensures Ends(old(db.Contents()), RecoverAccept(ctx, quote, proofs, at), env, db.Contents(), ctx.p, r)
    {
      hide MeltStore.Accept, RecoveryId, Finish, Ends;
      ghost var t, a := db.Contents(), RecoverAccept(ctx, quote, proofs, at);
      var accepted := lifecycles.AcceptPayment(ctx.p, AcceptanceFor(ctx, quote, proofs, at));
      if accepted.Ok? {
        r := if ctx.p in db.journals then Some(Accepted(db.journals[ctx.p])) else None;
        EndsNow(t, a, env, db.Contents(), ctx.p, r);
        return;
      }
      r := ReloadOrAttend(ctx, proofs.observedAt, Some(at), env);
      EndsLater(t, a, env, t, RecoverReload(ctx, proofs.observedAt, Some(at)), db.Contents(), ctx.p, r);
    }

    /** releaseReservation. */
    method ReleaseReservation(ctx: Context, quote: Quote, proofs: ProofHistory.Observation, at: nat, env: Environment)
      returns (r: Option<TerminalResult>)
      requires Wired() && Complete(env)
      modifies db
      ensures Ends(old(db.Contents()), RecoverRelease(ctx, quote, proofs, at), env, db.Contents(), ctx.p, r)
    {
      hide MeltStore.Release, RecoveryId, Finish, Ends;
      ghost var t, a := db.Contents(), RecoverRelease(ctx, quote, proofs, at);
      var released := lifecycles.Release(ctx.p, ReleaseFor(ctx, quote, proofs, at));
      if released.Ok? {
        r := Some(ReleasedResult);
        EndsNow(t, a, env, db.Contents(), ctx.p, r);
        return;
      }
      r := ReloadOrAttend(ctx, proofs.observedAt, Some(at), env);
      EndsLater(t, a, env, t, RecoverReload(ctx, proofs.observedAt, Some(at)), db.Contents(), ctx.p, r);
    }

    /** pendingResult: a PENDING quote is recorded, an UNPAID one before expiry is not. */
    method RecordPending(ctx: Context, quote: Quote, at: nat, env: Environment) returns (r: Option<TerminalResult>)
      requires Wired() && Complete(env)
      modifies db
      ensures Ends(old(db.Contents()), RecoverPending(ctx, quote, at), env, db.Contents(), ctx.p, r)
    {
      hide RecordEvent, EvidenceId, Finish, Ends;
      ghost var t, a := db.Contents(), RecoverPending(ctx, quote, at);
      r := None;
      var draft := PendingDraft(ctx.effect.effectId, EvidenceId("pending", ctx, quote.observedAt), quote.observedAt, at);
      var written := lifecycles.PersistDraft(ctx.p, draft);
      if written.Ok? {
        EndsNow(t, a, env, db.Contents(), ctx.p, r);
        return;
      }
      r := ReloadLast(ctx, env);
      EndsLater(t, a, env, t, RecoverReloadLast(ctx), db.Contents(), ctx.p, r);
    }

    /** The end of recover(): the clock, then the decision table. */
    method Conclude(ctx: Context, quote: Quote, proofs: ProofHistory.Observation, env: Environment)
      returns (r: Option<TerminalResult>)
      requires Wired() && Complete(env)
      modifies db
      ensures Ends(old(db.Contents()), RecoverDecide(ctx, quote, proofs), env, db.Contents(), ctx.p, r)
      ensures var t := old(db.Contents());
              Sound(t) && Settled(t, ctx.p, ctx, quote, proofs, env.decidedAt) ==>
                HasInvoice(t, t.payments[ctx.p])
                && Resolves(t, t.payments[ctx.p], ctx.p, quote, proofs, env.decidedAt, db.Contents(), r)
    {
      hide Finish, Ends, Decide, Sound, Settled, Resolves;
      ghost var t, a := db.Contents(), RecoverDecide(ctx, quote, proofs);
      var at := env.decidedAt;
      if quote.observedAt < ctx.effect.startedAt || proofs.observedAt < quote.observedAt
         || at < ctx.latestRecordedAt || at < proofs.observedAt {
        r := None;
        EndsNow(t, a, env, db.Contents(), ctx.p, r);
      } else {
        r := ApplyDecision(ctx, quote, proofs, env);
      }
      if Sound(t) && Settled(t, ctx.p, ctx, quote, proofs, env.decidedAt) {
        DecisionIsDetermined(t, ctx.p, ctx, quote, proofs, env, db.Contents(), r);
      }
    }

    /** The decision table, once the clocks are in order. */
    method ApplyDecision(ctx: Context, quote: Quote, proofs: ProofHistory.Observation, env: Environment)
      returns (r: Option<TerminalResult>)
      requires Wired() && Complete(env)
      requires ctx.effect.startedAt <= quote.observedAt <= proofs.observedAt <= env.decidedAt && ctx.latestRecordedAt <= env.decidedAt
      modifies db
      ensures Ends(old(db.Contents()), RecoverDecide(ctx, quote, proofs), env, db.Contents(), ctx.p, r)
    {
      hide Finish, Ends, Decide, Leads;
      ghost var t, a := db.Contents(), RecoverDecide(ctx, quote, proofs);
      var at := env.decidedAt;
      DecideStep(t, ctx, quote, proofs, env);
      match MeltCoordination.Decide(quote, proofs) {
        case DecideAccept =>
          r := AcceptPayment(ctx, quote, proofs, at, env);
          EndsLater(t, a, env, t, RecoverAccept(ctx, quote, proofs, at), db.Contents(), ctx.p, r);
        case DecideRelease =>
          r := ReleaseReservation(ctx, quote, proofs, at, env);
          EndsLater(t, a, env, t, RecoverRelease(ctx, quote, proofs, at), db.Contents(), ctx.p, r);
        case DecidePending =>
          r := None;
          if quote.state.Pending? {
            r := RecordPending(ctx, quote, at, env);
            EndsLater(t, a, env, t, RecoverPending(ctx, quote, at), db.Contents(), ctx.p, r);
          }
        case DecideAttention =>
          var evidenceAt := Later(quote.observedAt, proofs.observedAt);
          r := RecordAttention(ctx, OperatorStateUnknown, evidenceAt, Some(at), env);
          EndsLater(t, a, env, t, RecoverAttention(ctx, OperatorStateUnknown, evidenceAt, Some(at)), db.Contents(), ctx.p, r);
      }
    }

    method StoreProofs(ctx: Context, quote: Quote, proofs: ProofHistory.Observation, env: Environment)
      returns (r: Option<TerminalResult>)
      requires Wired() && Complete(env)
      modifies db
      ensures Ends(old(db.Contents()), RecoverStoreProofs(ctx, quote, proofs), env, db.Contents(), ctx.p, r)
    {
      hide ObserveProofs, Finish, Ends;
      ghost var t, a := db.Contents(), RecoverStoreProofs(ctx, quote, proofs);
      var stored := proofStates.PersistObservation(ctx.p, ReportFor(ctx, proofs));
      ghost var u := db.Contents();
      if stored.Ok? {
        r := Conclude(ctx, quote, proofs, env);
        EndsLater(t, a, env, u, RecoverDecide(ctx, quote, proofs), db.Contents(), ctx.p, r);
      } else {
        var evidenceAt := Later(quote.observedAt, proofs.observedAt);
        r := ReloadOrAttend(ctx, evidenceAt, None, env);
        EndsLater(t, a, env, t, RecoverReload(ctx, evidenceAt, None), db.Contents(), ctx.p, r);
      }
    }

    method CheckProofs(ctx: Context, quote: Quote, env: Environment) returns (r: Option<TerminalResult>)
      requires Wired() && Complete(env)
      modifies db
      ensures Ends(old(db.Contents()), RecoverCheckProofs(ctx, quote), env, db.Contents(), ctx.p, r)
    {
      hide Finish, Ends;
      ghost var t, a := db.Contents(), RecoverCheckProofs(ctx, quote);
      if env.proofs.AnswerFailed? || |env.proofs.proofs.states| != |ctx.reservation.proofs| {
        var why := if env.proofs.AnswerFailed? then env.proofs.why else OperatorResponseInvalid;
        r := RecordAttention(ctx, why, quote.observedAt, None, env);
        EndsLater(t, a, env, t, RecoverAttention(ctx, why, quote.observedAt, None), db.Contents(), ctx.p, r);
      } else {
        r := StoreProofs(ctx, quote, env.proofs.proofs, env);
        EndsLater(t, a, env, t, RecoverStoreProofs(ctx, quote, env.proofs.proofs), db.Contents(), ctx.p, r);
      }
    }

    method StoreQuote(ctx: Context, quote: Quote, env: Environment) returns (r: Option<TerminalResult>)
      requires Wired() && Complete(env)
      modifies db
      ensures Ends(old(db.Contents()), RecoverStoreQuote(ctx, quote), env, db.Contents(), ctx.p, r)
    {
      hide ObserveQuote, LatestQuote, Finish, Ends;
      ghost var t, a := db.Contents(), RecoverStoreQuote(ctx, quote);
      var stored := quotes.Observe(ctx.p, ctx.attemptId, quote);
      ghost var u := db.Contents();
      if stored.Ok? && ctx.p in db.payments && LatestQuote(db.payments[ctx.p]) == Some(quote) {
        r := CheckProofs(ctx, quote, env);
        EndsLater(t, a, env, u, RecoverCheckProofs(ctx, quote), db.Contents(), ctx.p, r);
      } else {
        r := ReloadOrAttend(ctx, quote.observedAt, None, env);
        EndsLater(t, a, env, u, RecoverReload(ctx, quote.observedAt, None), db.Contents(), ctx.p, r);
      }
    }

    method CheckQuote(ctx: Context, env: Environment) returns (r: Option<TerminalResult>)
      requires Wired() && Complete(env)
      modifies db
      ensures Ends(old(db.Contents()), RecoverCheckQuote(ctx), env, db.Contents(), ctx.p, r)
    {
      hide Finish, Ends, AcceptableAnswer;
      ghost var t, a := db.Contents(), RecoverCheckQuote(ctx);
      if env.quote.AnswerFailed? || !AcceptableAnswer(ctx, env.quote.quote) {
        var why := if env.quote.AnswerFailed? then env.quote.why else OperatorResponseInvalid;
        r := RecordAttention(ctx, why, env.quote.at, None, env);
        EndsLater(t, a, env, t, RecoverAttention(ctx, why, env.quote.at, None), db.Contents(), ctx.p, r);
      } else {
        r := StoreQuote(ctx, env.quote.quote, env);
        EndsLater(t, a, env, t, RecoverStoreQuote(ctx, env.quote.quote), db.Contents(), ctx.p, r);
      }
    }

    /** recover. */
    method Recover(p: string, env: Environment) returns (r: Option<TerminalResult>)
      requires Wired() && Complete(env)
      modifies db
      ensures Ends(old(db.Contents()), RecoverStart(p), env, db.Contents(), p, r)
      ensures Sound(old(db.Contents())) ==> RecoveryOutcome(old(db.Contents()), p, env, db.Contents(), r)
    {
      hide Finish, Ends, TerminalOf, LoadContext, Sound, RecoveryOutcome;
      ghost var t := db.Contents();
      r := ReloadTerminal(p);
      var context := RequireContext(p);
      if r.Some? || context.None? {
        EndsNow(t, RecoverStart(p), env, db.Contents(), p, r);
      } else {
        ContextOfPayment(t, p);
        r := CheckQuote(context.value, env);
        EndsLater(t, RecoverStart(p), env, t, RecoverCheckQuote(context.value), db.Contents(), p, r);
      }
      if Sound(t) { RecoveryIsDetermined(t, p, env, db.Contents(), r); }
    }

    static lemma ContextOfPayment(t: Tables, p: string)
      requires LoadContext(t, p).Some?
      ensures LoadContext(t, p).value.p == p
    {
      hide Readable, LatestQuote;
    }

    /** requireRecoverableEffect and requireRecoverableAttempt. */
    method RequireContext(p: string) returns (context: Option<Context>)
      requires Wired()
      ensures context == LoadContext(db.Contents(), p)
    {
      hide Readable, LatestQuote;
      if p !in db.payments {
        return None;
      }
      var loaded := lifecycles.LoadLifecycle(p);
      if loaded.Err? {
        return None;
      }
      var row, state := db.payments[p], loaded.value.state;
      if !(state.DispatchStarted? || state.PendingOutcome? || state.NeedsAttention?)
         || loaded.value.effect.None? || !loaded.value.effect.value.kind.Melt? {
        return None;
      }
      var effect := loaded.value.effect.value;
      var quote := LatestQuote(row);
      if row.attempt.None? || quote.None? || row.reservation.unit != STELLAR_UNIT {
        return None;
      }
      var attempt, latest := row.attempt.value, quote.value;
      if latest.terms.quoteId != effect.kind.reference || latest.terms.expiry != effect.kind.referenceExpiresAt
         || latest.terms.mintUrl != row.reservation.mintUrl
         || attempt.startedAt > effect.startedAt || latest.terms.expiry <= effect.startedAt {
        return None;
      }
      return Some(Context(p, effect, attempt.attemptId, latest, row.reservation, Last(loaded.value.events).recordedAt));
    }
  }

  // ------------------------------------------------------------------- dispatch

  class MeltCoordinator {
    const db: Database
    const lifecycles: LifecycleRepository

    constructor (database: Database, l: LifecycleRepository)
      requires l.db == database
      ensures db == database && lifecycles == l
    {
      db, lifecycles := database, l;
    }

    /** The POST of execute(), after a last look at the clock. */
    method Send(p: string, quote: Quote, preparedAt: nat, effect: Effect, env: Environment) returns (post: Option<Post>)
      requires Complete(env)
      ensures Posts(db.Contents(), DispatchAuthorized(p, quote, preparedAt, effect), env, db.Contents(), post)
    {
      hide Finish, Posts;
      var at := env.dispatchedAt;
      post := if at < preparedAt || quote.terms.expiry <= at then None
              else Some(Post(p, quote, at, effect.dispatchFingerprint));
      PostsNow(db.Contents(), DispatchAuthorized(p, quote, preparedAt, effect), env, db.Contents(), post);
    }

    /** The authorize callback, and what execute() does with its answer: only a fresh effect may send. */
    method Authorize(p: string, quote: Quote, preparedAt: nat, env: Environment) returns (post: Option<Post>)
      requires lifecycles.db == db && Complete(env)
      modifies db
      ensures Posts(old(db.Contents()), DispatchPrepared(p, quote, preparedAt), env, db.Contents(), post)
    {
      hide Finish, Posts, MeltStore.StartEffect;
      ghost var t, a := db.Contents(), DispatchPrepared(p, quote, preparedAt);
      var effect := EffectFor(quote, env.authority.effectId, env.authority.fingerprint, env.authority.startedAt);
      var started := lifecycles.StartEffect(p, env.authority.eventId, effect);
      ghost var u := db.Contents();
      post := None;
      if started.Err? || started.value {
        PostsNow(t, a, env, db.Contents(), post);
        return;
      }
      post := Send(p, quote, preparedAt, effect, env);
      PostsLater(t, a, env, u, DispatchAuthorized(p, quote, preparedAt, effect), db.Contents(), post);
    }

    /** dispatch, up to its POST. */
    method Dispatch(p: string, coordinatorAt: nat, env: Environment) returns (post: Option<Post>)
      requires lifecycles.db == db && Complete(env)
      modifies db
      ensures Posts(old(db.Contents()), DispatchStart(p, coordinatorAt), env, db.Contents(), post)
      ensures Sound(old(db.Contents())) && EventKey(env.authority.eventId) !in old(db.Contents()).keys ==>
                DispatchOutcome(old(db.Contents()), p, coordinatorAt, env, db.Contents(), post)
    {
      hide Finish, Posts, Readable, LatestQuote, Dispatchable, Sound, DispatchOutcome;
      ghost var t, a := db.Contents(), DispatchStart(p, coordinatorAt);
      post := None;
      var quote := PreparedQuote(p, coordinatorAt, env);
      if quote.None? {
        PostsNow(t, a, env, db.Contents(), post);
      } else {
        post := Authorize(p, quote.value, env.preparedAt, env);
        PostsLater(t, a, env, t, DispatchPrepared(p, quote.value, env.preparedAt), db.Contents(), post);
      }
      if Sound(t) && EventKey(env.authority.eventId) !in t.keys {
        DispatchesExactlyWhen(t, p, coordinatorAt, env, db.Contents(), post);
      }
    }

    /** The checks before the authorize callback: a reserved payment without effect, and its quote at both clocks. */
    method PreparedQuote(p: string, coordinatorAt: nat, env: Environment) returns (r: Option<Quote>)
      requires lifecycles.db == db && Complete(env)
      ensures r.Some? <==> && p in db.payments && Readable(db.Contents(), p) && Current(db.payments[p]).Reserved?
                           && db.payments[p].effect.None? && LatestQuote(db.payments[p]).Some?
                           && Dispatchable(LatestQuote(db.payments[p]).value, coordinatorAt)
                           && Dispatchable(LatestQuote(db.payments[p]).value, env.preparedAt)
      ensures r.Some? ==> r == LatestQuote(db.payments[p])
    {
      hide Readable, LatestQuote, Dispatchable;
      if p !in db.payments {
        return None;
      }
      var existing := lifecycles.LoadLifecycle(p);
      if existing.Err? || !existing.value.state.Reserved? || existing.value.effect.Some? {
        return None;
      }
      var quote := LatestQuote(db.payments[p]);
      if quote.None? || !Dispatchable(quote.value, coordinatorAt) || !Dispatchable(quote.value, env.preparedAt) {
        return None;
      }
      return quote;
    }
  }
}
