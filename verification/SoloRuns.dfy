/**
 * One dispatch or one recovery of the interleaved system run on its own: the
 * outside answers it can need, its steps to the end, and what it leaves behind.
 */
module SoloRuns {
  import opened Outcomes
  import opened MeltStore
  import opened MeltCoordination

  // --------------------------------------------------- one activity on its own

  /** The outside answers one recovery or dispatch can need. */
  datatype Environment = Environment(
    quote: Answer, proofs: Answer, decidedAt: nat, attendedAt: nat,
    preparedAt: nat, authority: Answer, dispatchedAt: nat)

  predicate Complete(env: Environment) {
    && (env.quote.QuoteAnswer? || env.quote.AnswerFailed?)
    && (env.proofs.ProofAnswer? || env.proofs.AnswerFailed?)
    && env.authority.Authority?
  }

  function AnswerTo(a: Activity, env: Environment): Answer {
    match a
    case DispatchStart(_, _) => Clock(env.preparedAt)
    case DispatchPrepared(_, _, _) => env.authority
    case DispatchAuthorized(_, _, _, _) => Clock(env.dispatchedAt)
    case RecoverCheckQuote(_) => env.quote
    case RecoverCheckProofs(_, _) => env.proofs
    case RecoverDecide(_, _, _) => Clock(env.decidedAt)
    case RecoverAttention(_, _, _, known) => if known.None? then Clock(env.attendedAt) else Nothing
    case _ => Nothing
  }

  function Solo(t: Tables, a: Activity): System {
    System(t, map[0 := a], [], [])
  }

  function Rank(a: Activity): nat {
    match a
    case DispatchStart(_, _) => 3
    case DispatchPrepared(_, _, _) => 2
    case DispatchAuthorized(_, _, _, _) => 1
    case RecoverStart(_) => 10
    case RecoverCheckQuote(_) => 9
    case RecoverStoreQuote(_, _) => 8
    case RecoverCheckProofs(_, _) => 7
    case RecoverStoreProofs(_, _, _) => 6
    case RecoverDecide(_, _, _) => 5
    case RecoverAccept(_, _, _, _) => 4
    case RecoverRelease(_, _, _, _) => 4
    case RecoverPending(_, _, _) => 4
    case RecoverReload(_, _, _) => 3
    case RecoverAttention(_, _, _, _) => 2
    case RecoverReloadLast(_) => 1
    case Ended => 0
  }

  predicate Running(s: System) {
    0 in s.activities && !s.activities[0].Ended?
  }

  lemma AnswersFit(a: Activity, env: Environment)
    requires Complete(env) && !a.Ended?
    ensures AnswerFits(a, AnswerTo(a, env))
  {
  }

  ghost function StepSolo(s: System, env: Environment): System
    requires Running(s) && Complete(env)
  {
    AnswersFit(s.activities[0], env);
    Next(s, Advance(0, AnswerTo(s.activities[0], env)))
  }

  lemma StepSoloAdvances(s: System, env: Environment)
    requires Running(s) && Complete(env)
    ensures 0 in StepSolo(s, env).activities && Rank(StepSolo(s, env).activities[0]) < Rank(s.activities[0])
    ensures StepSolo(s, env).activities == s.activities[0 := StepSolo(s, env).activities[0]]
  {
    hide StepRecover, StepDispatch;
    AnswersFit(s.activities[0], env);
    if s.activities[0].DispatchStart? || s.activities[0].DispatchPrepared? || s.activities[0].DispatchAuthorized? {
      DispatchAdvances(s, env);
    } else {
      RecoveryAdvances(s, env);
    }
  }

  lemma DispatchAdvances(s: System, env: Environment)
    requires Running(s) && AnswerFits(s.activities[0], AnswerTo(s.activities[0], env))
    requires s.activities[0].DispatchStart? || s.activities[0].DispatchPrepared? || s.activities[0].DispatchAuthorized?
    ensures var t := StepDispatch(s, 0, s.activities[0], AnswerTo(s.activities[0], env));
            && 0 in t.activities && Rank(t.activities[0]) < Rank(s.activities[0])
            && t.activities == s.activities[0 := t.activities[0]]
  {
    hide Readable, LatestQuote, Dispatchable, MeltStore.StartEffect, EffectFor;
  }

  lemma RecoveryAdvances(s: System, env: Environment)
    requires Running(s) && AnswerFits(s.activities[0], AnswerTo(s.activities[0], env))
    requires !s.activities[0].DispatchStart? && !s.activities[0].DispatchPrepared? && !s.activities[0].DispatchAuthorized?
    ensures var t := StepRecover(s, 0, s.activities[0], AnswerTo(s.activities[0], env));
            && 0 in t.activities && Rank(t.activities[0]) < Rank(s.activities[0])
            && t.activities == s.activities[0 := t.activities[0]]
  {
    hide LatestQuote, ObserveQuote, ObserveProofs, MeltStore.Accept, MeltStore.Release, RecordEvent, TerminalOf, LoadContext,
         Decide, AcceptableAnswer, EvidenceId, RecoveryId, ReportFor, ReasonText;
  }

  /** The activity runs to its end. */
  ghost function Finish(s: System, env: Environment): System
    requires 0 in s.activities && Complete(env)
    decreases Rank(s.activities[0])
  {
    if !Running(s) then s
    else
      StepSoloAdvances(s, env);
      Finish(StepSolo(s, env), env)
  }

  /** One step: into activity `b` on tables `u`. */
  ghost predicate Leads(t: Tables, a: Activity, env: Environment, u: Tables, b: Activity)
    requires Complete(env) && !a.Ended?
  {
    var s := StepSolo(Solo(t, a), env);
    s.tables == u && 0 in s.activities && s.activities[0] == b && s.results == [] && s.posts == []
  }

  /** The rest of a recovery leaves these tables and returns this terminal result, if any. */
  ghost predicate Ends(t: Tables, a: Activity, env: Environment, after: Tables, p: string, r: Option<TerminalResult>)
    requires Complete(env)
  {
    var s := Finish(Solo(t, a), env);
    s.tables == after && s.results == if r.Some? then [(p, r.value)] else []
  }

  lemma EndsLater(t: Tables, a: Activity, env: Environment, u: Tables, b: Activity, after: Tables, p: string, r: Option<TerminalResult>)
    requires Complete(env) && !a.Ended? && Leads(t, a, env, u, b) && Ends(u, b, env, after, p, r)
    ensures Ends(t, a, env, after, p, r)
  {
    hide StepSolo;
    StepSoloAdvances(Solo(t, a), env);
    assert Solo(t, a).activities[0 := b] == map[0 := b];
    assert StepSolo(Solo(t, a), env) == Solo(u, b);
  }

  lemma EndsNow(t: Tables, a: Activity, env: Environment, after: Tables, p: string, r: Option<TerminalResult>)
    requires Complete(env) && !a.Ended?
    requires var s := StepSolo(Solo(t, a), env);
             s.tables == after && 0 in s.activities && s.activities[0].Ended? && s.results == if r.Some? then [(p, r.value)] else []
    ensures Ends(t, a, env, after, p, r)
  {
    hide StepSolo;
    StepSoloAdvances(Solo(t, a), env);
    var next := StepSolo(Solo(t, a), env);
    assert Finish(next, env) == next;
  }

  /** A run on its own has one end. */
  lemma EndsOnce(t: Tables, a: Activity, env: Environment, after: Tables, p: string, r: Option<TerminalResult>,
                 other: Tables, q: Option<TerminalResult>)
    requires Complete(env) && Ends(t, a, env, after, p, r) && Ends(t, a, env, other, p, q)
    ensures other == after && q == r
  {
    hide Finish;
    var results := Finish(Solo(t, a), env).results;
    if r.Some? { assert results[0] == (p, r.value); }
    if q.Some? { assert results[0] == (p, q.value); }
  }

  /** The rest of a dispatch leaves these tables and has sent this POST, if any. */
  ghost predicate Posts(t: Tables, a: Activity, env: Environment, after: Tables, post: Option<Post>)
    requires Complete(env)
  {
    var s := Finish(Solo(t, a), env);
    s.tables == after && s.posts == if post.Some? then [post.value] else []
  }

  lemma PostsLater(t: Tables, a: Activity, env: Environment, u: Tables, b: Activity, after: Tables, post: Option<Post>)
    requires Complete(env) && !a.Ended? && Leads(t, a, env, u, b) && Posts(u, b, env, after, post)
    ensures Posts(t, a, env, after, post)
  {
    hide StepSolo;
    StepSoloAdvances(Solo(t, a), env);
    assert Solo(t, a).activities[0 := b] == map[0 := b];
    assert StepSolo(Solo(t, a), env) == Solo(u, b);
  }

  lemma PostsNow(t: Tables, a: Activity, env: Environment, after: Tables, post: Option<Post>)
    requires Complete(env) && !a.Ended?
    requires var s := StepSolo(Solo(t, a), env);
             s.tables == after && 0 in s.activities && s.activities[0].Ended? && s.posts == if post.Some? then [post.value] else []
    ensures Posts(t, a, env, after, post)
  {
    hide StepSolo;
    StepSoloAdvances(Solo(t, a), env);
    var next := StepSolo(Solo(t, a), env);
    assert Finish(next, env) == next;
  }

  lemma PostsOnce(t: Tables, a: Activity, env: Environment, after: Tables, post: Option<Post>, other: Tables, q: Option<Post>)
    requires Complete(env) && Posts(t, a, env, after, post) && Posts(t, a, env, other, q)
    ensures other == after && q == post
  {
    hide Finish;
    var posts := Finish(Solo(t, a), env).posts;
    if post.Some? { assert posts[0] == post.value; }
    if q.Some? { assert posts[0] == q.value; }
  }
}
