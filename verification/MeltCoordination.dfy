/**
 * Dispatch and recovery of melts as concurrent activities over the payment
 * tables: the dispatch coordinator with the execution client, and the recovery
 * coordinator. Every repository call, clock reading and operator answer is one
 * step; any number of activities interleave, and any of them may vanish.
 */
module MeltCoordination {
  import opened Outcomes
  import opened MeltRecords
  import opened MeltStore
  import opened MeltRows
  import opened MeltInvariants
  import opened MeltCalls
  import opened MeltTheorems
  import opened MeltReleases
  import ProofHistory
  import Ledger

  // -------------------------------------------------------------- activities

  /** What recover() carries along once it has loaded the payment. */
  datatype Context = Context(
    p: string, effect: Effect, attemptId: string, latest: Quote, reservation: Reservation, latestRecordedAt: nat)

  datatype TerminalResult = Accepted(accounting: Ledger.Accepted) | ReleasedResult

  datatype Activity =
    // dispatch()
    | DispatchStart(p: string, preparedAt: nat)
    | DispatchPrepared(p: string, quote: Quote, preparedAt: nat)
    | DispatchAuthorized(p: string, quote: Quote, preparedAt: nat, effect: Effect)
    // recover()
    | RecoverStart(p: string)
    | RecoverCheckQuote(ctx: Context)
    | RecoverStoreQuote(ctx: Context, quote: Quote)
    | RecoverCheckProofs(ctx: Context, quote: Quote)
    | RecoverStoreProofs(ctx: Context, quote: Quote, proofs: ProofHistory.Observation)
    | RecoverDecide(ctx: Context, quote: Quote, proofs: ProofHistory.Observation)
    | RecoverAccept(ctx: Context, quote: Quote, proofs: ProofHistory.Observation, recordedAt: nat)
    | RecoverRelease(ctx: Context, quote: Quote, proofs: ProofHistory.Observation, recordedAt: nat)
    | RecoverPending(ctx: Context, quote: Quote, recordedAt: nat)
    | RecoverAttention(ctx: Context, why: AttentionReason, evidenceAt: nat, knownRecordedAt: Option<nat>)
    | RecoverReload(ctx: Context, evidenceAt: nat, knownRecordedAt: Option<nat>)
    | RecoverReloadLast(ctx: Context)
    | Ended

  /** One POST of a melt, with the clock reading taken just before it. */
  datatype Post = Post(p: string, quote: Quote, dispatchedAt: nat, fingerprint: string)

  /** `results` collects the terminal results returned by recover calls. */
  datatype System = System(
    tables: Tables, activities: map<nat, Activity>, posts: seq<Post>, results: seq<(string, TerminalResult)>)

  /** The outside answers a step consumes. */
  datatype Answer =
    | Nothing
    | Clock(at: nat)
    | Authority(effectId: string, eventId: string, fingerprint: string, startedAt: nat)
    | QuoteAnswer(quote: Quote, at: nat)
    | ProofAnswer(proofs: ProofHistory.Observation)
    | AnswerFailed(why: AttentionReason, at: nat)

  datatype Step =
    | Launch(id: nat, p: string, recovery: bool, at: nat)
    | Advance(id: nat, answer: Answer)
    | Vanish(id: nat)
    | OtherCall(call: Call)

  // ------------------------------------------------------------- dispatching

  function LatestQuote(row: PaymentRow): Option<Quote> {
    if row.outcome.Some? && row.outcome.value.Quoted? && row.sightings != [] then
      Some(Quote(row.outcome.value.terms, Last(row.sightings).observedAt, Last(row.sightings).state))
    else None
  }

  /** requireDispatchableQuote, in the coordinator and again in the execution client. */
  predicate Dispatchable(quote: Quote, now: nat) {
    quote.state.Unpaid? && quote.terms.feeReserve == 0 && quote.observedAt <= now < quote.terms.expiry
  }

  function EffectFor(quote: Quote, effectId: string, fingerprint: string, startedAt: nat): Effect {
    Effect(effectId, fingerprint, startedAt, Melt(quote.terms.quoteId, quote.terms.expiry))
  }

  function Goto(s: System, id: nat, a: Activity): System {
    s.(activities := s.activities[id := a])
  }

  // --------------------------------------------------------------- recovering

  /** Hashed identifiers: what matters is that they depend on the effect, mint, payment and quote alone. */
  function RecoveryId(kind: string, ctx: Context): string {
    kind + ":" + ctx.effect.effectId + "|" + ctx.reservation.mintUrl + "|" + ctx.p + "|" + ctx.latest.terms.quoteId
  }

  function EvidenceId(kind: string, ctx: Context, evidenceAt: nat): string {
    RecoveryId("stellar-melt-recovery", ctx) + "|" + kind + "|" + seq(evidenceAt, _ => '+')
  }

  function ReasonText(why: AttentionReason): string {
    match why
    case TransportAmbiguous => "attention:transport_ambiguous"
    case OperatorStateUnknown => "attention:operator_state_unknown"
    case OperatorResponseInvalid => "attention:operator_response_invalid"
  }

  /** terminalResult on a readable payment, with its accounting. */
  function TerminalOf(t: Tables, p: string): Option<TerminalResult> {
    if p !in t.payments || !Readable(t, p) then None
    else if Current(t.payments[p]).Released? then Some(ReleasedResult)
    else if Current(t.payments[p]).Consumed? && p in t.journals then Some(Accepted(t.journals[p]))
    else None
  }

  /** requireRecoverableEffect and requireRecoverableAttempt. */
  function LoadContext(t: Tables, p: string): Option<Context> {
    if p !in t.payments || !Readable(t, p) then None
    else
      var row := t.payments[p];
      var quote := LatestQuote(row);
      if !Active(row) || row.effect.None? || !row.effect.value.kind.Melt? || row.attempt.None? || quote.None?
         || row.reservation.unit != STELLAR_UNIT
         || quote.value.terms.quoteId != row.effect.value.kind.reference
         || quote.value.terms.expiry != row.effect.value.kind.referenceExpiresAt
         || quote.value.terms.mintUrl != row.reservation.mintUrl
         || row.attempt.value.startedAt > row.effect.value.startedAt
         || row.effect.value.startedAt >= quote.value.terms.expiry
      then None
      else Some(Context(p, row.effect.value, row.attempt.value.attemptId, quote.value, row.reservation,
                        Last(row.events).recordedAt))
  }

  datatype Decision = DecideAccept | DecideRelease | DecidePending | DecideAttention

  predicate Uniformly(proofs: ProofHistory.Observation, wanted: ProofHistory.ProofState) {
    Uniform(proofs.states, wanted)
  }

  /** The decision table of recover(). */
  function Decide(quote: Quote, proofs: ProofHistory.Observation): Decision {
    if quote.state.Paid? && Uniformly(proofs, ProofHistory.Spent) then DecideAccept
    else if quote.state.Unpaid? && quote.observedAt >= quote.terms.expiry && Uniformly(proofs, ProofHistory.Unspent) then
      DecideRelease
    else if (quote.state.Pending? && (Uniformly(proofs, ProofHistory.InFlight) || Uniformly(proofs, ProofHistory.Unspent)))
            || (quote.state.Unpaid? && quote.observedAt < quote.terms.expiry && Uniformly(proofs, ProofHistory.Unspent))
    then DecidePending
    else DecideAttention
  }

  /** assertObservedQuote: same terms, and not older than what is stored. */
  predicate AcceptableAnswer(ctx: Context, quote: Quote) {
    && quote.terms == ctx.latest.terms
    && ctx.latest.observedAt <= quote.observedAt
    && (quote.observedAt == ctx.latest.observedAt ==> quote == ctx.latest)
  }

  function ReportFor(ctx: Context, proofs: ProofHistory.Observation): ProofReport {
    ProofReport(ctx.reservation.operatorId, ctx.reservation.mintUrl, ctx.reservation.unit, Ys(ctx.reservation.proofs), proofs)
  }

  function AcceptanceFor(ctx: Context, quote: Quote, proofs: ProofHistory.Observation, recordedAt: nat): AcceptInput {
    AcceptInput(ctx.effect.effectId, RecoveryId("stellar-melt-recovery-accepted", ctx), quote.observedAt, 0,
                RecoveryId("stellar-melt-payment", ctx), proofs.observedAt, recordedAt)
  }

  function ReleaseFor(ctx: Context, quote: Quote, proofs: ProofHistory.Observation, recordedAt: nat): ReleaseInput {
    ReleaseAfterFailure(RecoveryId("stellar-melt-recovery-released", ctx), ctx.effect.effectId, MeltUnpaidAfterExpiry,
                        quote.observedAt, proofs.observedAt, recordedAt)
  }

  function Later(a: nat, b: nat): nat { if a >= b then a else b }

  function Conclude(s: System, id: nat, p: string, result: TerminalResult): System {
    s.(activities := s.activities[id := Ended], results := s.results + [(p, result)])
  }

  /** reloadTerminal: a terminal payment ends the recovery with its stored result. */
  function ReloadOr(s: System, id: nat, p: string, otherwise: Activity): System {
    match TerminalOf(s.tables, p)
    case Some(result) => Conclude(s, id, p, result)
    case None => Goto(s, id, otherwise)
  }

  // -------------------------------------------------------------------- steps

  predicate AnswerFits(a: Activity, answer: Answer) {
    match a
    case DispatchStart(_, _) => answer.Clock?
    case DispatchPrepared(_, _, _) => answer.Authority?
    case DispatchAuthorized(_, _, _, _) => answer.Clock?
    case RecoverCheckQuote(_) => answer.QuoteAnswer? || answer.AnswerFailed?
    case RecoverCheckProofs(_, _) => answer.ProofAnswer? || answer.AnswerFailed?
    case RecoverDecide(_, _, _) => answer.Clock?
    case RecoverAttention(_, _, _, known) => if known.None? then answer.Clock? else answer.Nothing?
    case Ended => false
    case _ => answer.Nothing?
  }

  ghost predicate Enabled(s: System, step: Step) {
    match step
    case Launch(id, _, _, _) => id !in s.activities
    case Advance(id, answer) => id in s.activities && AnswerFits(s.activities[id], answer)
    case Vanish(id) => id in s.activities
    case OtherCall(_) => true
  }

  function StepDispatch(s: System, id: nat, a: Activity, answer: Answer): System
    requires a.DispatchStart? || a.DispatchPrepared? || a.DispatchAuthorized?
    requires AnswerFits(a, answer)
  {
    match a
    case DispatchStart(p, coordinatorAt) =>
      if p !in s.tables.payments || !Readable(s.tables, p) || !Current(s.tables.payments[p]).Reserved?
         || s.tables.payments[p].effect.Some? || LatestQuote(s.tables.payments[p]).None?
         || !Dispatchable(LatestQuote(s.tables.payments[p]).value, coordinatorAt)
         || !Dispatchable(LatestQuote(s.tables.payments[p]).value, answer.at)
      then Goto(s, id, Ended)
      else Goto(s, id, DispatchPrepared(p, LatestQuote(s.tables.payments[p]).value, answer.at))
    case DispatchPrepared(p, quote, preparedAt) =>
      var effect := EffectFor(quote, answer.effectId, answer.fingerprint, answer.startedAt);
      (match StartEffect(s.tables, p, answer.eventId, effect)
       case Err(_) => Goto(s, id, Ended)
       case Ok(done) =>
         Goto(s.(tables := done.tables), id,
              if done.replayed then Ended else DispatchAuthorized(p, quote, preparedAt, effect)))
    case DispatchAuthorized(p, quote, preparedAt, effect) =>
      if answer.at < preparedAt || answer.at >= quote.terms.expiry then Goto(s, id, Ended)
      else Goto(s, id, Ended).(posts := s.posts + [Post(p, quote, answer.at, effect.dispatchFingerprint)])
  }

  ghost function StepRecover(s: System, id: nat, a: Activity, answer: Answer): System
    requires !a.DispatchStart? && !a.DispatchPrepared? && !a.DispatchAuthorized? && !a.Ended?
    requires AnswerFits(a, answer)
  {
    match a
    case RecoverStart(p) =>
      (match TerminalOf(s.tables, p)
       case Some(result) => Conclude(s, id, p, result)
       case None =>
         match LoadContext(s.tables, p)
         case None => Goto(s, id, Ended)
         case Some(ctx) => Goto(s, id, RecoverCheckQuote(ctx)))
    case RecoverCheckQuote(ctx) =>
      if answer.AnswerFailed? then Goto(s, id, RecoverAttention(ctx, answer.why, answer.at, None))
      else if !AcceptableAnswer(ctx, answer.quote) then
        Goto(s, id, RecoverAttention(ctx, OperatorResponseInvalid, answer.at, None))
      else Goto(s, id, RecoverStoreQuote(ctx, answer.quote))
    case RecoverStoreQuote(ctx, quote) =>
      (match ObserveQuote(s.tables, ctx.p, ctx.attemptId, quote)
       case Ok(done) =>
         var t := s.(tables := done.tables);
         if ctx.p in done.tables.payments && LatestQuote(done.tables.payments[ctx.p]) == Some(quote)
         then Goto(t, id, RecoverCheckProofs(ctx, quote))
         else Goto(t, id, RecoverReload(ctx, quote.observedAt, None))
       case Err(_) => Goto(s, id, RecoverReload(ctx, quote.observedAt, None)))
    case RecoverCheckProofs(ctx, quote) =>
      if answer.AnswerFailed? then Goto(s, id, RecoverAttention(ctx, answer.why, quote.observedAt, None))
      else if |answer.proofs.states| != |ctx.reservation.proofs| then
        Goto(s, id, RecoverAttention(ctx, OperatorResponseInvalid, quote.observedAt, None))
      else Goto(s, id, RecoverStoreProofs(ctx, quote, answer.proofs))
    case RecoverStoreProofs(ctx, quote, proofs) =>
      (match ObserveProofs(s.tables, ctx.p, ReportFor(ctx, proofs))
       case Ok(done) => Goto(s.(tables := done.tables), id, RecoverDecide(ctx, quote, proofs))
       case Err(_) => Goto(s, id, RecoverReload(ctx, Later(quote.observedAt, proofs.observedAt), None)))
    case RecoverDecide(ctx, quote, proofs) =>
      if quote.observedAt < ctx.effect.startedAt || proofs.observedAt < quote.observedAt
         || answer.at < ctx.latestRecordedAt || answer.at < proofs.observedAt then Goto(s, id, Ended)
      else
        Goto(s, id,
          match Decide(quote, proofs)
          case DecideAccept => RecoverAccept(ctx, quote, proofs, answer.at)
          case DecideRelease => RecoverRelease(ctx, quote, proofs, answer.at)
          case DecidePending => if quote.state.Pending? then RecoverPending(ctx, quote, answer.at) else Ended
          case DecideAttention =>
            RecoverAttention(ctx, OperatorStateUnknown, Later(quote.observedAt, proofs.observedAt), Some(answer.at)))
    case RecoverAccept(ctx, quote, proofs, at) =>
      (match Accept(s.tables, ctx.p, AcceptanceFor(ctx, quote, proofs, at))
       case Ok(done) =>
         if ctx.p in done.tables.journals
         then Conclude(s.(tables := done.tables), id, ctx.p, Accepted(done.tables.journals[ctx.p]))
         else Goto(s.(tables := done.tables), id, Ended)
       case Err(_) => Goto(s, id, RecoverReload(ctx, proofs.observedAt, Some(at))))
    case RecoverRelease(ctx, quote, proofs, at) =>
      (match Release(s.tables, ctx.p, ReleaseFor(ctx, quote, proofs, at))
       case Ok(done) => Conclude(s.(tables := done.tables), id, ctx.p, ReleasedResult)
       case Err(_) => Goto(s, id, RecoverReload(ctx, proofs.observedAt, Some(at))))
    case RecoverPending(ctx, quote, at) =>
      (match RecordEvent(s.tables, ctx.p, PendingDraft(ctx.effect.effectId, EvidenceId("pending", ctx, quote.observedAt),
                                                       quote.observedAt, at))
       case Ok(done) => Goto(s.(tables := done.tables), id, Ended)
       case Err(_) => Goto(s, id, RecoverReloadLast(ctx)))
    case RecoverReload(ctx, evidenceAt, known) =>
      ReloadOr(s, id, ctx.p, RecoverAttention(ctx, OperatorStateUnknown, evidenceAt, known))
    case RecoverReloadLast(ctx) => ReloadOr(s, id, ctx.p, Ended)
    case RecoverAttention(ctx, why, evidenceAt, known) =>
      var at := if known.Some? then known.value else answer.at;
      if evidenceAt < ctx.effect.startedAt || at < evidenceAt || at < ctx.latestRecordedAt then Goto(s, id, Ended)
      else (
        match RecordEvent(s.tables, ctx.p, AttentionDraft(ctx.effect.effectId, EvidenceId(ReasonText(why), ctx, evidenceAt),
                                                          why, evidenceAt, at))
        case Ok(done) => Goto(s.(tables := done.tables), id, Ended)
        case Err(_) => Goto(s, id, RecoverReloadLast(ctx)))
  }

  ghost function Next(s: System, step: Step): System
    requires Enabled(s, step)
  {
    match step
    case Launch(id, p, recovery, at) => Goto(s, id, if recovery then RecoverStart(p) else DispatchStart(p, at))
    case Advance(id, answer) =>
      var a := s.activities[id];
      if a.DispatchStart? || a.DispatchPrepared? || a.DispatchAuthorized? then StepDispatch(s, id, a, answer)
      else StepRecover(s, id, a, answer)
    case Vanish(id) => s.(activities := s.activities - {id})
    case OtherCall(c) => s.(tables := After(s.tables, c))
  }

  ghost predicate IsRun(trace: seq<System>, steps: seq<Step>) {
    && |trace| == |steps| + 1
    && trace[0] == System(NoTables, map[], [], [])
    && forall i :: 0 <= i < |steps| ==> Enabled(trace[i], steps[i]) && trace[i + 1] == Next(trace[i], steps[i])
  }

  // -------------------------------------------------------------- invariants

  /** The payment's stored effect is the dispatch of this quote under this fingerprint. */
  predicate DispatchedAs(t: Tables, p: string, quote: Quote, fingerprint: string) {
    && p in t.payments && t.payments[p].effect.Some?
    && t.payments[p].effect.value.dispatchFingerprint == fingerprint
    && t.payments[p].effect.value.kind == Melt(quote.terms.quoteId, quote.terms.expiry)
  }

  predicate GoodPost(t: Tables, post: Post) {
    DispatchedAs(t, post.p, post.quote, post.fingerprint) && post.dispatchedAt < post.quote.terms.expiry
  }

  predicate GoodActivity(t: Tables, a: Activity) {
    a.DispatchAuthorized? ==> DispatchedAs(t, a.p, a.quote, a.effect.dispatchFingerprint)
  }

  predicate GoodResult(t: Tables, r: (string, TerminalResult)) {
    && r.0 in t.payments
    && match r.1
       case ReleasedResult => Current(t.payments[r.0]).Released?
       case Accepted(a) => Current(t.payments[r.0]).Consumed? && r.0 in t.journals && t.journals[r.0] == a
  }

  /** Each payment has at most one dispatcher holding authority, or one POST, never both. */
  ghost predicate Exclusive(activities: map<nat, Activity>, posts: seq<Post>) {
    && (forall j, k :: 0 <= j < k < |posts| ==> posts[j].p != posts[k].p)
    && (forall id, k :: id in activities && activities[id].DispatchAuthorized? && 0 <= k < |posts| ==>
          activities[id].p != posts[k].p)
    && (forall a, b :: a in activities && b in activities && a != b ==>
          activities[a].DispatchAuthorized? && activities[b].DispatchAuthorized? ==> activities[a].p != activities[b].p)
  }

  ghost predicate Invariant(s: System) {
    && Sound(s.tables)
    && GoodPosts(s.tables, s.posts)
    && GoodActivities(s.tables, s.activities)
    && GoodResults(s.tables, s.results)
    && Exclusive(s.activities, s.posts)
  }

  predicate GoodPosts(t: Tables, posts: seq<Post>) {
    forall k :: 0 <= k < |posts| ==> GoodPost(t, posts[k])
  }

  predicate GoodActivities(t: Tables, activities: map<nat, Activity>) {
    forall id :: id in activities ==> GoodActivity(t, activities[id])
  }

  predicate GoodResults(t: Tables, results: seq<(string, TerminalResult)>) {
    forall k :: 0 <= k < |results| ==> GoodResult(t, results[k])
  }

  lemma Parts(s: System)
    requires Invariant(s)
    ensures Sound(s.tables) && GoodPosts(s.tables, s.posts) && GoodActivities(s.tables, s.activities)
    ensures GoodResults(s.tables, s.results) && Exclusive(s.activities, s.posts)
  {
  }

  lemma FromParts(s: System)
    requires Sound(s.tables) && GoodPosts(s.tables, s.posts) && GoodActivities(s.tables, s.activities)
    requires GoodResults(s.tables, s.results) && Exclusive(s.activities, s.posts)
    ensures Invariant(s)
  {
  }

  lemma HistoryStays(s: System, u: Tables)
    requires Invariant(s) && TablesGrow(s.tables, u)
    ensures GoodPosts(u, s.posts) && GoodActivities(u, s.activities) && GoodResults(u, s.results)
  {
    hide Sound, TablesGrow, GoodPost, GoodActivity, GoodResult, Exclusive;
    forall k | 0 <= k < |s.posts| ensures GoodPost(u, s.posts[k]) {
      GoodPostStays(s.tables, u, s.posts[k]);
    }
    forall k | k in s.activities ensures GoodActivity(u, s.activities[k]) {
      GoodActivityStays(s.tables, u, s.activities[k]);
    }
    forall k | 0 <= k < |s.results| ensures GoodResult(u, s.results[k]) {
      GoodResultStays(s.tables, u, s.results[k]);
    }
  }

  lemma GoodPostStays(t: Tables, u: Tables, post: Post)
    requires TablesGrow(t, u) && GoodPost(t, post)
    ensures GoodPost(u, post)
  {
    PaymentsStay(t, u, post.p);
    EffectStays(t.payments[post.p], u.payments[post.p]);
    hide TablesGrow, Grows;
  }

  lemma GoodActivityStays(t: Tables, u: Tables, a: Activity)
    requires TablesGrow(t, u) && GoodActivity(t, a)
    ensures GoodActivity(u, a)
  {
    if a.DispatchAuthorized? {
      PaymentsStay(t, u, a.p);
      EffectStays(t.payments[a.p], u.payments[a.p]);
    }
    hide TablesGrow, Grows;
  }

  lemma GoodResultStays(t: Tables, u: Tables, r: (string, TerminalResult))
    requires TablesGrow(t, u) && GoodResult(t, r)
    ensures GoodResult(u, r)
  {
    PaymentsStay(t, u, r.0);
    TerminalNeverChanges(t.payments[r.0], u.payments[r.0]);
    if r.1.Accepted? { JournalStays(t, u, r.0); }
    hide TablesGrow, Grows;
  }

  /** Growing tables, at most one changed activity, and at most one new result keep the invariant. */
  lemma QuietStep(s: System, t: System, id: nat)
    requires Invariant(s) && Sound(t.tables) && TablesGrow(s.tables, t.tables)
    requires t.posts == s.posts
    requires forall k :: k in t.activities && k != id ==> k in s.activities && t.activities[k] == s.activities[k]
    requires id in t.activities ==> !t.activities[id].DispatchAuthorized?
    requires t.results == s.results
          || (exists r :: t.results == s.results + [r] && GoodResult(t.tables, r))
    ensures Invariant(t)
  {
    hide *;
    Parts(s);
    HistoryStays(s, t.tables);
    QuietActivities(t.tables, s.activities, t.activities, id);
    QuietExclusive(s.activities, t.activities, s.posts, id);
    QuietResults(t.tables, s.results, t.results);
    FromParts(t);
  }

  lemma QuietActivities(t: Tables, before: map<nat, Activity>, after: map<nat, Activity>, id: nat)
    requires GoodActivities(t, before)
    requires forall k :: k in after && k != id ==> k in before && after[k] == before[k]
    requires id in after ==> !after[id].DispatchAuthorized?
    ensures GoodActivities(t, after)
  {
    forall k | k in after ensures GoodActivity(t, after[k]) {
      if k == id { NotAuthorizedIsGood(t, after[k]); }
    }
  }

  lemma QuietExclusive(before: map<nat, Activity>, after: map<nat, Activity>, posts: seq<Post>, id: nat)
    requires Exclusive(before, posts)
    requires forall k :: k in after && k != id ==> k in before && after[k] == before[k]
    requires id in after ==> !after[id].DispatchAuthorized?
    ensures Exclusive(after, posts)
  {
  }

  lemma QuietResults(t: Tables, before: seq<(string, TerminalResult)>, after: seq<(string, TerminalResult)>)
    requires GoodResults(t, before)
    requires after == before || (exists r :: after == before + [r] && GoodResult(t, r))
    ensures GoodResults(t, after)
  {
    hide GoodResult;
  }

  lemma NotAuthorizedIsGood(t: Tables, a: Activity)
    requires !a.DispatchAuthorized?
    ensures GoodActivity(t, a)
  {
  }

  // ------------------------------------------------------------ dispatch steps

  /** A fresh start finds no earlier dispatch of its payment. */
  lemma FreshStartIsFirst(s: System, p: string, eventId: string, effect: Effect)
    requires Invariant(s) && StartEffect(s.tables, p, eventId, effect).Ok?
    requires !StartEffect(s.tables, p, eventId, effect).value.replayed
    ensures forall k :: 0 <= k < |s.posts| ==> s.posts[k].p != p
    ensures forall id :: id in s.activities && s.activities[id].DispatchAuthorized? ==> s.activities[id].p != p
    ensures var u := StartEffect(s.tables, p, eventId, effect).value.tables;
            p in u.payments && u.payments[p].effect == Some(effect)
  {
    hide Sound, StartEffect;
    StartNeedsPayment(s.tables, p, eventId, effect);
    FreshStartIsNew(s.tables, p, eventId, effect);
    StartConditions(s.tables, p, eventId, effect);
    StartShape(s.tables, p, eventId, effect);
    StartFacts(s.tables.payments[p], eventId, effect);
    forall k | 0 <= k < |s.posts| ensures s.posts[k].p != p {
      assert GoodPost(s.tables, s.posts[k]);
    }
    forall id | id in s.activities && s.activities[id].DispatchAuthorized? ensures s.activities[id].p != p {
      assert GoodActivity(s.tables, s.activities[id]);
    }
  }

  function RequestedEffect(a: Activity, answer: Answer): Effect
    requires a.DispatchPrepared? && answer.Authority?
  {
    EffectFor(a.quote, answer.effectId, answer.fingerprint, answer.startedAt)
  }

  lemma AuthorizeShape(s: System, id: nat, answer: Answer)
    requires id in s.activities && s.activities[id].DispatchPrepared? && answer.Authority?
    ensures var a, t := s.activities[id], StepDispatch(s, id, s.activities[id], answer);
            var effect := RequestedEffect(a, answer);
            var started := StartEffect(s.tables, a.p, answer.eventId, effect);
            && t.posts == s.posts && t.results == s.results
            && id in t.activities && t.activities == s.activities[id := t.activities[id]]
            && t.tables == (if started.Ok? then started.value.tables else s.tables)
            && effect.kind == Melt(a.quote.terms.quoteId, a.quote.terms.expiry)
            && if started.Ok? && !started.value.replayed
               then t.activities[id] == DispatchAuthorized(a.p, a.quote, a.preparedAt, effect)
               else t.activities[id].Ended?
  {
    hide StartEffect;
  }

  lemma AuthorityFits(a: Activity, answer: Answer)
    requires a.DispatchPrepared? && answer.Authority?
    ensures AnswerFits(a, answer)
  {
  }

  lemma AuthorizeKeeps(s: System, id: nat, answer: Answer)
    requires Invariant(s) && id in s.activities && s.activities[id].DispatchPrepared? && answer.Authority?
    ensures Invariant(StepDispatch(s, id, s.activities[id], answer))
  {
    hide *;
    AuthorityFits(s.activities[id], answer);
    SoundOf(s);
    AuthorizeShape(s, id, answer);
    var a, t := s.activities[id], StepDispatch(s, id, s.activities[id], answer);
    var effect := RequestedEffect(a, answer);
    if StartEffect(s.tables, a.p, answer.eventId, effect).Ok? {
      StartEffectKeeps(s.tables, a.p, answer.eventId, effect);
      PreservesParts(s.tables, t.tables);
      if StartEffect(s.tables, a.p, answer.eventId, effect).value.replayed {
        QuietStep(s, t, id);
      } else {
        FreshStartIsFirst(s, a.p, answer.eventId, effect);
        AuthorizedStep(s, t, id);
      }
    } else {
      GrowIsReflexive(s.tables);
      QuietStep(s, t, id);
    }
  }

  lemma PreservesParts(t: Tables, u: Tables)
    requires Preserves(t, u)
    ensures Sound(u) && TablesGrow(t, u)
  {
  }

  /** Granting authority on a payment that nobody has dispatched. */
  lemma AuthorizedStep(s: System, t: System, id: nat)
    requires Invariant(s) && Sound(t.tables) && TablesGrow(s.tables, t.tables)
    requires t.posts == s.posts && t.results == s.results
    requires id in t.activities && t.activities == s.activities[id := t.activities[id]]
    requires var a := t.activities[id];
             && a.DispatchAuthorized? && a.p in t.tables.payments && t.tables.payments[a.p].effect == Some(a.effect)
             && a.effect.kind == Melt(a.quote.terms.quoteId, a.quote.terms.expiry)
             && (forall k :: 0 <= k < |s.posts| ==> s.posts[k].p != a.p)
             && (forall k :: k in s.activities && s.activities[k].DispatchAuthorized? ==> s.activities[k].p != a.p)
    ensures Invariant(t)
  {
    hide *;
    Parts(s);
    HistoryStays(s, t.tables);
    NewAuthority(t.tables, s.activities, t.activities, s.posts, id);
    FromParts(t);
  }

  lemma NewAuthority(t: Tables, before: map<nat, Activity>, after: map<nat, Activity>, posts: seq<Post>, id: nat)
    requires GoodActivities(t, before) && Exclusive(before, posts)
    requires id in after && after == before[id := after[id]]
    requires var a := after[id];
             && a.DispatchAuthorized? && a.p in t.payments && t.payments[a.p].effect == Some(a.effect)
             && a.effect.kind == Melt(a.quote.terms.quoteId, a.quote.terms.expiry)
             && (forall k :: 0 <= k < |posts| ==> posts[k].p != a.p)
             && (forall k :: k in before && before[k].DispatchAuthorized? ==> before[k].p != a.p)
    ensures GoodActivities(t, after) && Exclusive(after, posts)
  {
    assert GoodActivity(t, after[id]);
    hide GoodActivity;
  }

  lemma PostKeeps(s: System, id: nat, answer: Answer)
    requires Invariant(s) && id in s.activities && s.activities[id].DispatchAuthorized? && answer.Clock?
    ensures Invariant(StepDispatch(s, id, s.activities[id], answer))
  {
    hide Sound, GoodResult;
    assert GoodActivity(s.tables, s.activities[id]);
    var t := StepDispatch(s, id, s.activities[id], answer);
    assert t.tables == s.tables;
    forall k | 0 <= k < |t.posts| ensures GoodPost(t.tables, t.posts[k]) {
      if k < |s.posts| { assert GoodPost(s.tables, s.posts[k]); }
    }
    forall k | k in t.activities ensures GoodActivity(t.tables, t.activities[k]) {
      if k != id { assert GoodActivity(s.tables, s.activities[k]); }
    }
    assert Exclusive(t.activities, t.posts) by { hide GoodPost, GoodActivity; }
  }

  lemma DispatchKeeps(s: System, id: nat, answer: Answer)
    requires Invariant(s) && id in s.activities && AnswerFits(s.activities[id], answer)
    requires s.activities[id].DispatchStart? || s.activities[id].DispatchPrepared? || s.activities[id].DispatchAuthorized?
    ensures Invariant(StepDispatch(s, id, s.activities[id], answer))
  {
    hide Invariant, Sound, TablesGrow, Readable, LatestQuote, Dispatchable, StepDispatch;
    if s.activities[id].DispatchStart? {
      SoundOf(s);
      GrowIsReflexive(s.tables);
      PrepareShape(s, id, answer);
      QuietStep(s, StepDispatch(s, id, s.activities[id], answer), id);
    } else if s.activities[id].DispatchPrepared? {
      AuthorizeKeeps(s, id, answer);
    } else {
      PostKeeps(s, id, answer);
    }
  }

  lemma PrepareShape(s: System, id: nat, answer: Answer)
    requires id in s.activities && s.activities[id].DispatchStart? && answer.Clock?
    ensures var t := StepDispatch(s, id, s.activities[id], answer);
            && t.tables == s.tables && t.posts == s.posts && t.results == s.results
            && id in t.activities && t.activities == s.activities[id := t.activities[id]]
            && !t.activities[id].DispatchAuthorized?
  {
    hide Readable, LatestQuote, Dispatchable;
  }

  lemma SoundOf(s: System)
    requires Invariant(s)
    ensures Sound(s.tables)
  {
  }

  // ------------------------------------------------------------ recovery steps

  lemma TerminalOfIsGood(t: Tables, p: string)
    requires TerminalOf(t, p).Some?
    ensures GoodResult(t, (p, TerminalOf(t, p).value))
  {
    hide Readable;
  }

  lemma AcceptedResultIsGood(t: Tables, p: string, input: AcceptInput)
    requires Sound(t) && Accept(t, p, input).Ok? && p in Accept(t, p, input).value.tables.journals
    ensures var u := Accept(t, p, input).value.tables; GoodResult(u, (p, Accepted(u.journals[p])))
  {
    hide Accept;
    AcceptKeeps(t, p, input);
    JournalOfPayment(Accept(t, p, input).value.tables, p);
    hide Sound;
  }

  lemma ReleasedResultIsGood(t: Tables, p: string, input: ReleaseInput)
    requires Sound(t) && input.ReleaseAfterFailure? && Release(t, p, input).Ok?
    ensures GoodResult(Release(t, p, input).value.tables, (p, ReleasedResult))
  {
    hide Release, Sound, SnapshotSupports, HasQuotedEvidence, IsLatestSnapshot, PersistTransition;
    ReleaseShape(t, p, input);
    ReleasedRow(t, p, input);
  }

  /** A recovery step makes at most one repository call and returns at most one, truthful, terminal result. */
  lemma RecoverShape(s: System, id: nat, answer: Answer)
    requires Sound(s.tables) && id in s.activities && AnswerFits(s.activities[id], answer)
    requires var a := s.activities[id]; !a.DispatchStart? && !a.DispatchPrepared? && !a.DispatchAuthorized? && !a.Ended?
    ensures var t := StepRecover(s, id, s.activities[id], answer);
            && Sound(t.tables) && TablesGrow(s.tables, t.tables) && t.posts == s.posts
            && id in t.activities && t.activities == s.activities[id := t.activities[id]]
            && !t.activities[id].DispatchAuthorized?
            && (t.results == s.results || (exists r :: t.results == s.results + [r] && GoodResult(t.tables, r)))
  {
    hide Sound, TablesGrow, ObserveQuote, ObserveProofs, Accept, Release, RecordEvent, TerminalOf, LoadContext, Decide,
         GoodResult, LatestQuote, AcceptableAnswer, EvidenceId, RecoveryId, ReasonText;
    GrowIsReflexive(s.tables);
    var t := StepRecover(s, id, s.activities[id], answer);
    match s.activities[id]
    case RecoverStart(p) =>
      if TerminalOf(s.tables, p).Some? { TerminalOfIsGood(s.tables, p); }
    case RecoverCheckQuote(ctx) =>
    case RecoverStoreQuote(ctx, quote) =>
      if ObserveQuote(s.tables, ctx.p, ctx.attemptId, quote).Ok? { ObserveQuoteKeeps(s.tables, ctx.p, ctx.attemptId, quote); }
    case RecoverCheckProofs(ctx, quote) =>
    case RecoverStoreProofs(ctx, quote, proofs) =>
      if ObserveProofs(s.tables, ctx.p, ReportFor(ctx, proofs)).Ok? { ObserveProofsKeeps(s.tables, ctx.p, ReportFor(ctx, proofs)); }
    case RecoverDecide(ctx, quote, proofs) =>
    case RecoverAccept(ctx, quote, proofs, at) =>
      var input := AcceptanceFor(ctx, quote, proofs, at);
      if Accept(s.tables, ctx.p, input).Ok? {
        AcceptKeeps(s.tables, ctx.p, input);
        if ctx.p in t.tables.journals { AcceptedResultIsGood(s.tables, ctx.p, input); }
      }
    case RecoverRelease(ctx, quote, proofs, at) =>
      var input := ReleaseFor(ctx, quote, proofs, at);
      if Release(s.tables, ctx.p, input).Ok? {
        FailureReleaseKeeps(s.tables, ctx.p, input);
        ReleasedResultIsGood(s.tables, ctx.p, input);
      }
    case RecoverPending(ctx, quote, at) =>
      var draft := PendingDraft(ctx.effect.effectId, EvidenceId("pending", ctx, quote.observedAt), quote.observedAt, at);
      if RecordEvent(s.tables, ctx.p, draft).Ok? { RecordEventKeeps(s.tables, ctx.p, draft); }
    case RecoverReload(ctx, evidenceAt, known) =>
      if TerminalOf(s.tables, ctx.p).Some? { TerminalOfIsGood(s.tables, ctx.p); }
    case RecoverReloadLast(ctx) =>
      if TerminalOf(s.tables, ctx.p).Some? { TerminalOfIsGood(s.tables, ctx.p); }
    case RecoverAttention(ctx, why, evidenceAt, known) =>
      var at := if known.Some? then known.value else answer.at;
      var draft := AttentionDraft(ctx.effect.effectId, EvidenceId(ReasonText(why), ctx, evidenceAt), why, evidenceAt, at);
      if RecordEvent(s.tables, ctx.p, draft).Ok? { RecordEventKeeps(s.tables, ctx.p, draft); }
  }

  lemma AdvanceKeeps(s: System, id: nat, answer: Answer)
    requires Invariant(s) && id in s.activities && AnswerFits(s.activities[id], answer)
    ensures var t := Next(s, Advance(id, answer)); Invariant(t) && TablesGrow(s.tables, t.tables)
  {
    hide Invariant, Sound, TablesGrow, StepDispatch, StepRecover;
    SoundOf(s);
    var a := s.activities[id];
    if a.DispatchStart? || a.DispatchPrepared? || a.DispatchAuthorized? {
      DispatchKeeps(s, id, answer);
      DispatchGrows(s, id, answer);
    } else {
      RecoverShape(s, id, answer);
      QuietStep(s, Next(s, Advance(id, answer)), id);
    }
  }

  lemma NextKeeps(s: System, step: Step)
    requires Invariant(s) && Enabled(s, step)
    ensures Invariant(Next(s, step)) && TablesGrow(s.tables, Next(s, step).tables)
  {
    hide Invariant, Sound, TablesGrow, After, StepRecover, StepDispatch;
    SoundOf(s);
    GrowIsReflexive(s.tables);
    match step
    case Launch(id, p, recovery, at) => QuietStep(s, Next(s, step), id);
    case Advance(id, answer) => AdvanceKeeps(s, id, answer);
    case Vanish(id) => QuietStep(s, Next(s, step), id);
    case OtherCall(c) =>
      ApplyKeeps(s.tables, c);
      var free := FreeId(s.activities);
      QuietStep(s, Next(s, step), free);
  }

  lemma FreeId(m: map<nat, Activity>) returns (id: nat)
    ensures id !in m
  {
    if forall k: nat :: k in m {
      id := 0;
      SomeIdIsFree(m.Keys);
    } else {
      id :| id !in m;
    }
  }

  lemma {:induction false} SomeIdIsFree(keys: set<nat>)
    ensures exists k: nat :: k !in keys
  {
    BoundedKeys(keys, |keys| + 1);
  }

  lemma {:induction false} BoundedKeys(keys: set<nat>, n: nat)
    requires n > |keys|
    ensures exists k: nat :: k < n && k !in keys
  {
    if n - 1 in keys {
      BoundedKeys(keys - {n - 1}, n - 1);
      var k: nat :| k < n - 1 && k !in keys - {n - 1};
      assert k !in keys;
    }
  }

  lemma DispatchGrows(s: System, id: nat, answer: Answer)
    requires Sound(s.tables) && id in s.activities && AnswerFits(s.activities[id], answer)
    requires s.activities[id].DispatchStart? || s.activities[id].DispatchPrepared? || s.activities[id].DispatchAuthorized?
    ensures TablesGrow(s.tables, StepDispatch(s, id, s.activities[id], answer).tables)
  {
    hide Sound, TablesGrow, StartEffect, Readable;
    GrowIsReflexive(s.tables);
    if s.activities[id].DispatchPrepared? {
      var effect := EffectFor(s.activities[id].quote, answer.effectId, answer.fingerprint, answer.startedAt);
      if StartEffect(s.tables, s.activities[id].p, answer.eventId, effect).Ok? {
        StartEffectKeeps(s.tables, s.activities[id].p, answer.eventId, effect);
      }
    }
  }

  lemma {:induction false} RunInvariant(trace: seq<System>, steps: seq<Step>, i: nat)
    requires IsRun(trace, steps) && i < |trace|
    ensures Invariant(trace[i])
  {
    if i == 0 {
      NoTablesSound();
    } else {
      hide Invariant, Next;
      RunInvariant(trace, steps, i - 1);
      NextKeeps(trace[i - 1], steps[i - 1]);
    }
  }

  lemma NoTablesSound()
    ensures Sound(NoTables)
  {
    assert MeltStore.IsRun([NoTables], []);
    RunIsSound([NoTables], [], 0);
  }

  lemma {:induction false} RunOnlyGrows(trace: seq<System>, steps: seq<Step>, i: nat, j: nat)
    requires IsRun(trace, steps) && i <= j < |trace|
    ensures TablesGrow(trace[i].tables, trace[j].tables)
    decreases j
  {
    hide Invariant, Next, TablesGrow;
    if i == j {
      GrowIsReflexive(trace[i].tables);
    } else {
      RunOnlyGrows(trace, steps, i, j - 1);
      RunInvariant(trace, steps, j - 1);
      NextKeeps(trace[j - 1], steps[j - 1]);
      GrowIsTransitive(trace[i].tables, trace[j - 1].tables, trace[j].tables);
    }
  }

  // ------------------------------------------------------------- main results

  /** However many dispatchers run, at most one POST is ever issued for a payment. */
  lemma AtMostOnePostPerPayment(trace: seq<System>, steps: seq<Step>, i: nat, a: nat, b: nat)
    requires IsRun(trace, steps) && i < |trace|
    requires a < |trace[i].posts| && b < |trace[i].posts| && trace[i].posts[a].p == trace[i].posts[b].p
    ensures a == b
  {
    hide IsRun;
    RunInvariant(trace, steps, i);
  }

  /**
   * When a POST goes out, its effect is already stored, with the same fingerprint, quote and expiry, the clock
   * is before that expiry, and any release that later rests on expiry has its evidence from after it.
   */
  lemma PostIsCoveredByItsEffect(trace: seq<System>, steps: seq<Step>, i: nat, j: nat)
    requires IsRun(trace, steps) && i < |steps| && i <= j < |trace|
    requires |trace[i].posts| < |trace[i + 1].posts|
    ensures |trace[i + 1].posts| == |trace[i].posts| + 1
    ensures var post := trace[i + 1].posts[|trace[i].posts|];
            && DispatchedAs(trace[i].tables, post.p, post.quote, post.fingerprint)
            && post.dispatchedAt < post.quote.terms.expiry
            && post.p in trace[j].tables.payments
            && (ReleasedAfterExpiry(trace[j].tables.payments[post.p]) ==>
                  Last(trace[j].tables.payments[post.p].events).evidenceAt.Some?
                  && post.dispatchedAt < Last(trace[j].tables.payments[post.p].events).evidenceAt.value)
  {
    RunInvariant(trace, steps, i);
    RunInvariant(trace, steps, j);
    RunOnlyGrows(trace, steps, i, j);
    PostStep(trace[i], steps[i]);
    hide IsRun, Next, Sound, Invariant, TablesGrow;
    var post := trace[i + 1].posts[|trace[i].posts|];
    PaymentsStay(trace[i].tables, trace[j].tables, post.p);
    SoundOf(trace[j]);
    RowInInvoice(trace[j].tables, post.p);
    if ReleasedAfterExpiry(trace[j].tables.payments[post.p]) {
      var row := trace[j].tables.payments[post.p];
      hide RowSound, ReleasedAfterExpiry, Grows;
      ReleasedRowFacts(trace[j].tables.invoices[row.reservation.invoiceId], row);
      EffectStays(trace[i].tables.payments[post.p], row);
    }
  }

  lemma PostStep(s: System, step: Step)
    requires Invariant(s) && Enabled(s, step) && |s.posts| < |Next(s, step).posts|
    ensures |Next(s, step).posts| == |s.posts| + 1
    ensures var post := Next(s, step).posts[|s.posts|];
            DispatchedAs(s.tables, post.p, post.quote, post.fingerprint) && post.dispatchedAt < post.quote.terms.expiry
  {
    OnlyDispatchPosts(s, step);
    hide Sound, StepDispatch, DispatchedAs, GoodResult, TablesGrow;
    DispatchPost(s, step.id, step.answer);
  }

  lemma OnlyDispatchPosts(s: System, step: Step)
    requires Sound(s.tables) && Enabled(s, step) && |s.posts| < |Next(s, step).posts|
    ensures step.Advance? && step.id in s.activities
    ensures var a := s.activities[step.id]; a.DispatchStart? || a.DispatchPrepared? || a.DispatchAuthorized?
  {
    hide Sound, StepRecover, StepDispatch, After;
    match step
    case Advance(id, answer) =>
      var a := s.activities[id];
      if !a.DispatchStart? && !a.DispatchPrepared? && !a.DispatchAuthorized? {
        RecoveryPostsNothing(s, id, answer);
      }
    case _ =>
  }

  lemma RecoveryPostsNothing(s: System, id: nat, answer: Answer)
    requires Sound(s.tables) && id in s.activities && AnswerFits(s.activities[id], answer)
    requires var a := s.activities[id]; !a.DispatchStart? && !a.DispatchPrepared? && !a.DispatchAuthorized? && !a.Ended?
    ensures StepRecover(s, id, s.activities[id], answer).posts == s.posts
  {
    hide Sound, StepRecover;
    RecoverShape(s, id, answer);
  }

  lemma DispatchPost(s: System, id: nat, answer: Answer)
    requires id in s.activities && AnswerFits(s.activities[id], answer) && GoodActivity(s.tables, s.activities[id])
    requires s.activities[id].DispatchStart? || s.activities[id].DispatchPrepared? || s.activities[id].DispatchAuthorized?
    requires |s.posts| < |StepDispatch(s, id, s.activities[id], answer).posts|
    ensures var t := StepDispatch(s, id, s.activities[id], answer);
            && |t.posts| == |s.posts| + 1
            && var post := t.posts[|s.posts|];
               DispatchedAs(s.tables, post.p, post.quote, post.fingerprint) && post.dispatchedAt < post.quote.terms.expiry
  {
    hide StartEffect, Readable, LatestQuote, Dispatchable, DispatchedAs;
  }

  /** All terminal results that recover calls ever return for one payment are the same result. */
  lemma TerminalResultsAgree(trace: seq<System>, steps: seq<Step>, i: nat, a: nat, b: nat)
    requires IsRun(trace, steps) && i < |trace|
    requires a < |trace[i].results| && b < |trace[i].results| && trace[i].results[a].0 == trace[i].results[b].0
    ensures trace[i].results[a] == trace[i].results[b]
  {
    hide IsRun;
    RunInvariant(trace, steps, i);
    assert GoodResult(trace[i].tables, trace[i].results[a]);
    assert GoodResult(trace[i].tables, trace[i].results[b]);
    hide Sound, TablesGrow;
  }

  /** A terminal result once returned is what the tables say from then on. */
  lemma TerminalResultIsDurable(trace: seq<System>, steps: seq<Step>, i: nat, j: nat, a: nat)
    requires IsRun(trace, steps) && i <= j < |trace| && a < |trace[i].results|
    ensures GoodResult(trace[j].tables, trace[i].results[a])
  {
    hide IsRun, Sound, TablesGrow, GoodResult;
    RunInvariant(trace, steps, i);
    RunOnlyGrows(trace, steps, i, j);
    GoodResultStays(trace[i].tables, trace[j].tables, trace[i].results[a]);
  }

  /**
   * What recover calls return rests on stored evidence, then and later: a released melt was never seen paid and
   * no proof of it SPENT, an accepted payment has a PAID observation and an all-SPENT snapshot.
   */
  lemma TerminalResultRestsOnEvidence(trace: seq<System>, steps: seq<Step>, i: nat, j: nat, a: nat)
    requires IsRun(trace, steps) && i <= j < |trace| && a < |trace[i].results|
    ensures trace[i].results[a].0 in trace[j].tables.payments
    ensures var row := trace[j].tables.payments[trace[i].results[a].0];
            match trace[i].results[a].1
            case ReleasedResult =>
              row.effect.Some? && row.effect.value.kind.Melt? ==> NeverPaid(row) && NeverSpent(row)
            case Accepted(_) => ShowsPayment(row)
  {
    TerminalResultIsDurable(trace, steps, i, j, a);
    RunInvariant(trace, steps, j);
    SoundOf(trace[j]);
    hide IsRun, Sound, Invariant, ShowsPayment, NeverPaid, NeverSpent, Current;
    TerminalEvidence(trace[j].tables, trace[i].results[a].0);
  }
}
