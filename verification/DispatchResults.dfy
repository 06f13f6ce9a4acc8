/**
 * When a dispatch starts its effect and when it sends its POST, as conditions
 * on the stored payment, the clock readings and the authority answer.
 */
module DispatchResults {
  import opened Outcomes
  import opened MeltRecords
  import opened MeltStore
  import opened MeltRows
  import opened MeltInvariants
  import opened MeltCalls
  import opened MeltTheorems
  import opened MeltCommits
  import opened MeltCoordination
  import opened SoloRuns

  /** The effect is stored under these answers: everything a dispatch checks before its last clock reading. */
  predicate DispatchStarts(t: Tables, p: string, coordinatorAt: nat, env: Environment)
    requires Complete(env)
  {
    && p in t.payments && Current(t.payments[p]).Reserved? && t.payments[p].effect.None?
    && HasQuotedEvidence(t.payments[p]) && HasInvoice(t, t.payments[p])
    && var row, invoice := t.payments[p], InvoiceOf(t, t.payments[p]);
       var quote, startedAt := StoredQuote(row), env.authority.startedAt;
       && quote.state.Unpaid? && quote.terms.feeReserve == 0
       && quote.observedAt <= coordinatorAt < quote.terms.expiry
       && quote.observedAt <= env.preparedAt < quote.terms.expiry
       && quote.observedAt <= startedAt < quote.terms.expiry
       && row.reservation.reservedAt <= startedAt
       && invoice.paidAt.None? && invoice.createdAt <= startedAt < invoice.expiresAt
       && row.reservation.invoiceId !in t.invoiceClaims
       && EffectKey(env.authority.effectId) !in t.keys
       && DispatchKey(row.reservation.mintUrl, true, env.authority.fingerprint) !in t.keys
       && ReferenceKey(row.reservation.mintUrl, quote.terms.quoteId) !in t.keys
  }

  /** A started dispatch sends exactly when its last clock reading is neither behind the prepared one nor past the expiry. */
  predicate DispatchSends(t: Tables, p: string, coordinatorAt: nat, env: Environment)
    requires Complete(env)
  {
    && DispatchStarts(t, p, coordinatorAt, env)
    && env.preparedAt <= env.dispatchedAt < t.payments[p].outcome.value.terms.expiry
  }

  /** What a dispatch leaves behind: its effect and dispatch event if it started, the old tables otherwise. */
  predicate DispatchLeaves(t: Tables, p: string, coordinatorAt: nat, env: Environment, u: Tables)
    requires Complete(env)
  {
    if DispatchStarts(t, p, coordinatorAt, env) then
      var row, authority := t.payments[p], env.authority;
      var effect := Effect(authority.effectId, authority.fingerprint, authority.startedAt,
                           Melt(row.outcome.value.terms.quoteId, row.outcome.value.terms.expiry));
      var started := Event(authority.eventId, DispatchStarted, authority.startedAt, Some(authority.effectId), None, None, None, None);
      && u.payments == t.payments[p := row.(effect := Some(effect), events := row.events + [started])]
      && u.invoiceClaims == t.invoiceClaims[row.reservation.invoiceId := p]
      && u.invoices == t.invoices && u.journals == t.journals && u.proofClaims == t.proofClaims
    else u == t
  }

  lemma SoundTerms(t: Tables, p: string)
    requires Sound(t) && p in t.payments && HasQuotedEvidence(t.payments[p])
    ensures var row := t.payments[p];
            && HasInvoice(t, row) && RouteOf(t, row).Some? && AttemptMatches(row, InvoiceOf(t, row))
            && row.attempt.value.request.destination == RouteOf(t, row).value.destination
  {
    hide Sound, SnapshotsSound, EventsSound, EffectSound, SightingsReadable, AttemptMatches, MatchesAttempt, OutcomeSound;
    RowIsSound(t, p);
  }

  /** The evidence check of a start, on sound tables: the last observation is UNPAID and not from the future. */
  lemma EvidenceIsTheLastSighting(t: Tables, p: string, effectId: string, fingerprint: string, startedAt: nat)
    requires Sound(t) && p in t.payments && HasInvoice(t, t.payments[p]) && HasQuotedEvidence(t.payments[p])
    ensures var row := t.payments[p];
            DispatchEvidence(t, row, EffectFor(StoredQuote(row), effectId, fingerprint, startedAt)).None?
            <==> StoredQuote(row).state.Unpaid? && StoredQuote(row).observedAt <= startedAt
  {
    hide Sound, SightingsReadable, AttemptMatches;
    SoundTerms(t, p);
    FirstIsNotLater(t.payments[p]);
  }

  lemma FirstIsNotLater(row: PaymentRow)
    requires HasQuotedEvidence(row)
    ensures row.sightings != [] && row.outcome.value.recordedAt <= Last(row.sightings).observedAt
  {
    if |row.sightings| > 1 {
      SightingsIncrease(row.attempt.value.startedAt, row.outcome.value.terms.expiry, row.outcome.value.recordedAt,
                        row.sightings, 0, |row.sightings| - 1);
    }
  }

  lemma QuoteOfSoundRow(t: Tables, p: string)
    requires Sound(t) && p in t.payments
    ensures LatestQuote(t.payments[p]).Some? <==> HasQuotedEvidence(t.payments[p])
    ensures HasQuotedEvidence(t.payments[p]) ==> LatestQuote(t.payments[p]) == Some(StoredQuote(t.payments[p]))
    ensures HasInvoice(t, t.payments[p])
  {
    RowIsSound(t, p);
    if HasQuotedEvidence(t.payments[p]) { FirstIsNotLater(t.payments[p]); }
    hide Sound, SnapshotsSound, EventsSound, EffectSound, AttemptMatches, SightingsReadable;
  }

  /** The checks before the authorize callback. */
  predicate Preparable(t: Tables, p: string, coordinatorAt: nat, env: Environment)
    requires Complete(env)
  {
    && p in t.payments && Current(t.payments[p]).Reserved? && t.payments[p].effect.None? && HasQuotedEvidence(t.payments[p])
    && Dispatchable(StoredQuote(t.payments[p]), coordinatorAt) && Dispatchable(StoredQuote(t.payments[p]), env.preparedAt)
  }

  function EffectOf(t: Tables, p: string, env: Environment): Effect
    requires Complete(env) && p in t.payments && HasQuotedEvidence(t.payments[p])
  {
    EffectFor(StoredQuote(t.payments[p]), env.authority.effectId, env.authority.fingerprint, env.authority.startedAt)
  }

  lemma StartsIffAllowed(t: Tables, p: string, coordinatorAt: nat, env: Environment)
    requires Sound(t) && Complete(env) && Preparable(t, p, coordinatorAt, env)
    ensures DispatchStarts(t, p, coordinatorAt, env) <==> StartAllowed(t, p, EffectOf(t, p, env))
  {
    hide Sound, Readable, HasQuotedEvidence, DispatchEvidence;
    QuoteOfSoundRow(t, p);
    ReadableBeforeDispatch(t, p);
    EvidenceIsTheLastSighting(t, p, env.authority.effectId, env.authority.fingerprint, env.authority.startedAt);
    var effect := EffectOf(t, p, env);
    var mint := t.payments[p].reservation.mintUrl;
    assert EffectKeys(mint, effect)
           == {EffectKey(effect.effectId), DispatchKey(mint, true, effect.dispatchFingerprint), ReferenceKey(mint, effect.kind.reference)};
    hide EffectKeys;
  }

  lemma StartLeaves(t: Tables, p: string, coordinatorAt: nat, env: Environment, u: Tables)
    requires Sound(t) && Complete(env) && DispatchStarts(t, p, coordinatorAt, env) && EventKey(env.authority.eventId) !in t.keys
    requires StartAllowed(t, p, EffectOf(t, p, env)) && u == StartWritten(t, p, env.authority.eventId, EffectOf(t, p, env))
    ensures DispatchLeaves(t, p, coordinatorAt, env, u)
  {
    StartWriteShape(t, p, env.authority.eventId, EffectOf(t, p, env));
    hide Sound, HasQuotedEvidence, StartAllowed, StartWritten, EffectKeys;
    assert t.payments[p].events == [] by { ReservedHasNoEvents(t, p); }
  }

  lemma ReservedHasNoEvents(t: Tables, p: string)
    requires Sound(t) && p in t.payments && Current(t.payments[p]).Reserved? && t.payments[p].effect.None?
    ensures t.payments[p].events == []
  {
    RowIsSound(t, p);
    NoEffectMeansReservedOrReleased(t.payments[p]);
    hide Sound, SnapshotsSound, QuotesSound;
  }

  lemma PreparableGuards(t: Tables, p: string, coordinatorAt: nat, env: Environment)
    requires Sound(t) && Complete(env)
    ensures Preparable(t, p, coordinatorAt, env)
            <==> && p in t.payments && Readable(t, p) && Current(t.payments[p]).Reserved? && t.payments[p].effect.None?
                 && LatestQuote(t.payments[p]).Some? && Dispatchable(LatestQuote(t.payments[p]).value, coordinatorAt)
                 && Dispatchable(LatestQuote(t.payments[p]).value, env.preparedAt)
    ensures Preparable(t, p, coordinatorAt, env) ==> LatestQuote(t.payments[p]).value == StoredQuote(t.payments[p])
  {
    hide Sound, Readable, LatestQuote, Dispatchable, HasQuotedEvidence;
    if p in t.payments {
      QuoteOfSoundRow(t, p);
      if t.payments[p].effect.None? { ReadableBeforeDispatch(t, p); }
    }
  }

  lemma FirstStep(t: Tables, p: string, coordinatorAt: nat, env: Environment)
    requires Complete(env)
    ensures var a := DispatchStart(p, coordinatorAt);
            StepSolo(Solo(t, a), env) == StepDispatch(Solo(t, a), 0, a, Clock(env.preparedAt))
  {
    hide StepDispatch, StepRecover;
  }

  /** The first step: on to the authorize callback, or the end. */
  lemma StartStep(t: Tables, p: string, coordinatorAt: nat, env: Environment)
    requires Sound(t) && Complete(env)
    ensures Preparable(t, p, coordinatorAt, env) ==>
              Leads(t, DispatchStart(p, coordinatorAt), env, t, DispatchPrepared(p, StoredQuote(t.payments[p]), env.preparedAt))
    ensures !Preparable(t, p, coordinatorAt, env) ==> Posts(t, DispatchStart(p, coordinatorAt), env, t, None)
  {
    hide Sound, Preparable, HasQuotedEvidence, Posts, StepSolo, StoredQuote, Readable, LatestQuote, Dispatchable;
    PreparableGuards(t, p, coordinatorAt, env);
    FirstStep(t, p, coordinatorAt, env);
    if !Preparable(t, p, coordinatorAt, env) { PostsNow(t, DispatchStart(p, coordinatorAt), env, t, None); }
  }

  /** A refused start ends the dispatch; a fresh one goes on to its last clock reading. */
  lemma AuthorizeStep(t: Tables, p: string, quote: Quote, env: Environment)
    requires Complete(env)
    requires var effect := EffectFor(quote, env.authority.effectId, env.authority.fingerprint, env.authority.startedAt);
             var r := StartEffect(t, p, env.authority.eventId, effect);
             r.Ok? ==> !r.value.replayed
    ensures var effect := EffectFor(quote, env.authority.effectId, env.authority.fingerprint, env.authority.startedAt);
            var r := StartEffect(t, p, env.authority.eventId, effect);
            if r.Ok? then
              Leads(t, DispatchPrepared(p, quote, env.preparedAt), env, r.value.tables,
                    DispatchAuthorized(p, quote, env.preparedAt, effect))
            else Posts(t, DispatchPrepared(p, quote, env.preparedAt), env, t, None)
  {
    hide StartEffect, EffectFor, Posts, Finish, StepRecover;
    var effect := EffectFor(quote, env.authority.effectId, env.authority.fingerprint, env.authority.startedAt);
    if StartEffect(t, p, env.authority.eventId, effect).Err? { PostsNow(t, DispatchPrepared(p, quote, env.preparedAt), env, t, None); }
  }

  lemma SendStep(u: Tables, p: string, quote: Quote, effect: Effect, env: Environment)
    requires Complete(env)
    ensures Posts(u, DispatchAuthorized(p, quote, env.preparedAt, effect), env, u,
                  if env.preparedAt <= env.dispatchedAt < quote.terms.expiry
                  then Some(Post(p, quote, env.dispatchedAt, effect.dispatchFingerprint)) else None)
  {
    hide Posts, Finish, StepRecover;
    PostsNow(u, DispatchAuthorized(p, quote, env.preparedAt, effect), env, u,
             if env.preparedAt <= env.dispatchedAt < quote.terms.expiry
             then Some(Post(p, quote, env.dispatchedAt, effect.dispatchFingerprint)) else None);
  }

  predicate IsSent(t: Tables, p: string, coordinatorAt: nat, env: Environment, post: Option<Post>)
    requires Complete(env)
  {
    if DispatchSends(t, p, coordinatorAt, env)
    then post == Some(Post(p, StoredQuote(t.payments[p]), env.dispatchedAt, env.authority.fingerprint))
    else post == None
  }

  /** From the authorize callback on. */
  lemma AuthorizedRun(t: Tables, p: string, coordinatorAt: nat, env: Environment) returns (u: Tables, post: Option<Post>)
    requires Sound(t) && Complete(env) && Preparable(t, p, coordinatorAt, env) && EventKey(env.authority.eventId) !in t.keys
    ensures Posts(t, DispatchPrepared(p, StoredQuote(t.payments[p]), env.preparedAt), env, u, post)
    ensures IsSent(t, p, coordinatorAt, env, post) && DispatchLeaves(t, p, coordinatorAt, env, u)
  {
    hide Sound, HasQuotedEvidence, DispatchStarts, StartAllowed, StartEffect, StartWritten, Posts, DispatchLeaves, StepSolo,
         Dispatchable;
    var quote, effect := StoredQuote(t.payments[p]), EffectOf(t, p, env);
    var a, b := DispatchPrepared(p, quote, env.preparedAt), DispatchAuthorized(p, quote, env.preparedAt, effect);
    StartsIffAllowed(t, p, coordinatorAt, env);
    StartsExactlyWhenAllowed(t, p, env.authority.eventId, effect);
    if DispatchStarts(t, p, coordinatorAt, env) {
      StartWriteReads(t, p, env.authority.eventId, effect);
      AllowedStartCommits(t, p, env.authority.eventId, effect);
      u := StartWritten(t, p, env.authority.eventId, effect);
      StartLeaves(t, p, coordinatorAt, env, u);
      AuthorizeStep(t, p, quote, env);
      SendStep(u, p, quote, effect, env);
      post := if env.preparedAt <= env.dispatchedAt < quote.terms.expiry
              then Some(Post(p, quote, env.dispatchedAt, effect.dispatchFingerprint)) else None;
      PostsLater(t, a, env, u, b, u, post);
    } else {
      u, post := t, None;
      AuthorizeStep(t, p, quote, env);
      NothingLeft(t, p, coordinatorAt, env);
    }
  }

  lemma NothingLeft(t: Tables, p: string, coordinatorAt: nat, env: Environment)
    requires Complete(env) && !DispatchStarts(t, p, coordinatorAt, env)
    ensures DispatchLeaves(t, p, coordinatorAt, env, t) && IsSent(t, p, coordinatorAt, env, None)
  {
  }

  lemma DispatchRun(t: Tables, p: string, coordinatorAt: nat, env: Environment) returns (u: Tables, post: Option<Post>)
    requires Sound(t) && Complete(env) && EventKey(env.authority.eventId) !in t.keys
    ensures Posts(t, DispatchStart(p, coordinatorAt), env, u, post)
    ensures IsSent(t, p, coordinatorAt, env, post) && DispatchLeaves(t, p, coordinatorAt, env, u)
  {
    hide *;
    StartStep(t, p, coordinatorAt, env);
    if Preparable(t, p, coordinatorAt, env) {
      PreparedQuote(t, p, coordinatorAt, env);
      u, post := AuthorizedRun(t, p, coordinatorAt, env);
      PostsLater(t, DispatchStart(p, coordinatorAt), env, t, DispatchPrepared(p, StoredQuote(t.payments[p]), env.preparedAt), u, post);
    } else {
      UnpreparedNeverStarts(t, p, coordinatorAt, env);
      u, post := t, None;
      NothingLeft(t, p, coordinatorAt, env);
    }
  }

  lemma PreparedQuote(t: Tables, p: string, coordinatorAt: nat, env: Environment)
    requires Complete(env) && Preparable(t, p, coordinatorAt, env)
    ensures p in t.payments && HasQuotedEvidence(t.payments[p])
  {
  }

  lemma UnpreparedNeverStarts(t: Tables, p: string, coordinatorAt: nat, env: Environment)
    requires Complete(env) && !Preparable(t, p, coordinatorAt, env)
    ensures !DispatchStarts(t, p, coordinatorAt, env)
  {
    hide HasQuotedEvidence;
  }

  /** What a dispatch must come to: its POST and the tables it leaves. */
  predicate DispatchOutcome(t: Tables, p: string, coordinatorAt: nat, env: Environment, after: Tables, post: Option<Post>)
    requires Complete(env)
  {
    IsSent(t, p, coordinatorAt, env, post) && DispatchLeaves(t, p, coordinatorAt, env, after)
  }

  /**
   * A dispatch on its own sends its POST exactly when the payment is reserved, its quote was last seen UNPAID with
   * no fee reserve, nothing stands in the way of the effect, and the clocks are in order before the expiry. The POST
   * carries the stored quote, the last clock reading and the fingerprint given.
   */
  lemma DispatchesExactlyWhen(t: Tables, p: string, coordinatorAt: nat, env: Environment, after: Tables, post: Option<Post>)
    requires Sound(t) && Complete(env) && EventKey(env.authority.eventId) !in t.keys
    requires Posts(t, DispatchStart(p, coordinatorAt), env, after, post)
    ensures post.Some? <==> DispatchSends(t, p, coordinatorAt, env)
    ensures DispatchOutcome(t, p, coordinatorAt, env, after, post)
  {
    hide Sound, Posts, DispatchSends, DispatchLeaves, HasQuotedEvidence;
    var u, sent := DispatchRun(t, p, coordinatorAt, env);
    PostsOnce(t, DispatchStart(p, coordinatorAt), env, after, post, u, sent);
  }
}
