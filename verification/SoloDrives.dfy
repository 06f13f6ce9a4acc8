/**
 * One payout drive or check of the interleaved system run on its own: the
 * outside answers it can need, its steps to the end, and what it leaves behind.
 */
module SoloDrives {
  import opened Outcomes
  import opened Settlements
  import opened StateStores
  import opened Payouts

  // ------------------------------------------------------ one driver on its own

  /** The outside answers one drive can need; a missing one is a call that failed. */
  datatype Environment = Environment(
    signed: Option<(Hash, string)>, observed: Option<Observation>, submitted: SubmitResult,
    onReserve: Persist, onPrepare: Persist, onMark: Persist, onApply: Persist)

  function AnswerFor(pc: Pc, env: Environment): Answer {
    match pc
    case DriveReserve => Persisting(env.onReserve)
    case DrivePrepare => if env.signed.Some? then Signed(env.signed.value.0, env.signed.value.1) else PrepareError
    case DriveRecord(_, _) => Persisting(env.onPrepare)
    case DrivePrepareFailed => Persisting(env.onPrepare)
    case DriveObserve(_, _) => if env.observed.Some? then Observes(env.observed.value) else ObserveError
    case DriveMark(_, _) => Persisting(env.onMark)
    case DriveAwait(_, _) => Submits(env.submitted)
    case ReconcileObserve(_) => if env.observed.Some? then Observes(env.observed.value) else ObserveError
    case Applying(_) => Persisting(env.onApply)
    case _ => Nothing
  }

  /** A drive under way: the store, where the driver stands, and the envelope it has sent. */
  datatype Progress = Progress(store: Store, pc: Pc, sent: Option<(Hash, string)>)

  ghost function Updated(g: Progress, q: QuoteId, change: Change, persist: Persist, next: Pc): Progress {
    var (store, result) := Commit(g.store, UpdateSettlement(q, change), persist);
    g.(store := store, pc := if result.Ok? then next else Finished)
  }

  ghost function StepAlone(g: Progress, q: QuoteId, env: Environment): Progress
    requires !g.pc.Finished?
  {
    var melt := g.store.mem.melt;
    match g.pc
    case DriveStart =>
      g.(pc := if q !in melt then Finished else if melt[q].settlement.state.Unpaid? then DriveReserve
               else AfterRead(melt[q].settlement))
    case DriveReserve => Updated(g, q, Transition(OpReserveProofs), env.onReserve, DriveReread)
    case DriveReread => g.(pc := if q !in melt then Finished else AfterRead(melt[q].settlement))
    case DrivePrepare =>
      g.(pc := if env.signed.None? then DrivePrepareFailed else DriveRecord(env.signed.value.0, env.signed.value.1))
    case DriveRecord(h, e) => Updated(g, q, Transition(OpRecordPrepared(h, e)), env.onPrepare, DriveLoad)
    case DrivePrepareFailed =>
      Updated(g, q, Transition(OpRecordProvableFailure("payout preparation failed")), env.onPrepare, DriveLoad)
    case DriveLoad =>
      g.(pc := if q !in melt || melt[q].settlement.state.Failed? || melt[q].settlement.prepared.None? then Finished
               else DriveObserve(melt[q].settlement.prepared.value.hash, melt[q].settlement.prepared.value.envelope))
    case DriveObserve(h, e) =>
      g.(pc := if env.observed.None? then Finished else if env.observed.value.NotFound? then DriveMark(h, e)
               else Applying(ObservationChange(env.observed.value)))
    case DriveMark(h, e) => Updated(g, q, Transition(OpRecordDispatchStarted), env.onMark, DriveSubmit(h, e))
    case DriveSubmit(h, e) => g.(pc := DriveAwait(h, e), sent := Some((h, e)))
    case DriveAwait(h, _) => g.(pc := Applying(SubmitChange(env.submitted, h)))
    case CheckStart =>
      g.(pc := if q in melt && melt[q].settlement.prepared.Some?
                  && (melt[q].settlement.state.ProofsReserved? || melt[q].settlement.state.Submitted?
                      || melt[q].settlement.state.NeedsAttention?)
               then ReconcileStart else Finished)
    case ReconcileStart =>
      g.(pc := if q !in melt || melt[q].settlement.prepared.None? then Finished
               else ReconcileObserve(melt[q].settlement.prepared.value.hash))
    case ReconcileObserve(_) =>
      g.(pc := if env.observed.None? || env.observed.value.NotFound? then Finished
               else Applying(ObservationChange(env.observed.value)))
    case Applying(change) => Updated(g, q, change, env.onApply, Finished)
  }

  /** Each position leads to a later one, so a drive ends. */
  function Rank(pc: Pc): nat {
    match pc
    case DriveStart => 12
    case DriveReserve => 11
    case DriveReread => 10
    case DrivePrepare => 9
    case DriveRecord(_, _) => 8
    case DrivePrepareFailed => 8
    case DriveLoad => 7
    case DriveObserve(_, _) => 6
    case DriveMark(_, _) => 5
    case DriveSubmit(_, _) => 4
    case DriveAwait(_, _) => 3
    case CheckStart => 12
    case ReconcileStart => 5
    case ReconcileObserve(_) => 4
    case Applying(_) => 2
    case Finished => 0
  }

  lemma StepAloneAdvances(g: Progress, q: QuoteId, env: Environment)
    requires !g.pc.Finished?
    ensures Rank(StepAlone(g, q, env).pc) < Rank(g.pc)
  {
    hide Commit, SubmitChange, ObservationChange;
  }

  /** The whole rest of a drive. */
  ghost function Alone(g: Progress, q: QuoteId, env: Environment): Progress
    decreases Rank(g.pc)
  {
    if g.pc.Finished? then g
    else
      StepAloneAdvances(g, q, env);
      Alone(StepAlone(g, q, env), q, env)
  }

  /** Every step of a drive on its own is the driver's move in the interleaved system. */
  lemma StepAloneIsAMove(s: System, d: nat, env: Environment, sent: Option<(Hash, string)>)
    requires d in s.drivers && !s.drivers[d].pc.Finished?
    requires Allowed(s, d, AnswerFor(s.drivers[d].pc, env))
    ensures var q, pc := s.drivers[d].quote, s.drivers[d].pc;
            var t, g := Moved(s, d, AnswerFor(pc, env)), StepAlone(Progress(s.store, pc, sent), q, env);
            && t.store == g.store && t.drivers == s.drivers[d := Driver(q, g.pc)]
            && t.dispatches == s.dispatches + (if pc.DriveSubmit? then [Dispatch(q, g.sent.value.0, g.sent.value.1)] else [])
            && (!pc.DriveSubmit? ==> g.sent == sent)
  {
    hide Commit;
  }

  lemma Unfolds(g: Progress, q: QuoteId, env: Environment)
    requires !g.pc.Finished?
    ensures Alone(g, q, env) == Alone(StepAlone(g, q, env), q, env)
  {
  }
}
