/**
 * What one payout drive, reconciliation or check comes to, as a table over the
 * rail's answers: the settlement it leaves in memory and the envelope it sends.
 */
module PayoutResults {
  import opened Outcomes
  import opened Settlements
  import opened StateStores
  import opened Payouts
  import opened SoloDrives

  // ------------------------------------------------------------ observations

  /** The prepared transaction with its dispatch on record. */
  function Marked(v: Value): Option<Prepared>
    requires v.prepared.Some?
  {
    Some(v.prepared.value.(dispatchStarted := true))
  }

  predicate Live(s: State) { s.ProofsReserved? || s.Submitted? || s.NeedsAttention? }

  /**
   * What an observation makes of a prepared settlement. Confirmation of the prepared hash ends in Paid unless Failed,
   * its final failure in Failed with the reason unless Paid, and a pending one in Submitted while the payout is live.
   * Anything about another hash, or nothing found, leaves the settlement alone.
   */
  predicate ObservationLeaves(v: Value, o: Observation, w: Value)
    requires v.prepared.Some?
  {
    var h := v.prepared.value.hash;
    match o
    case Confirmed(x) => w == if x == h && !v.state.Failed? then Value(Paid(h), Marked(v)) else v
    case Pending(x) => w == if x == h && Live(v.state) then Value(Submitted(h), Marked(v)) else v
    case ProvablyFailed(x, reason) => w == if x == h && Live(v.state) then v.(state := Failed(reason)) else v
    case NotFound => w == v
  }

  /** What the answer to a submission makes of a settlement whose dispatch was just marked. */
  predicate SubmissionLeaves(v: Value, r: SubmitResult, w: Value)
    requires v.prepared.Some?
  {
    var h := v.prepared.value.hash;
    && w.prepared == v.prepared
    && match r
       case Accepted => w.state == Submitted(h)
       case SubmitConfirmed => w.state == Paid(h)
       case ProvablyRejected(reason) => w.state == Failed(reason)
       case Ambiguous(reason) => w.state == NeedsAttention(reason)
       case SubmitError => w.state == NeedsAttention("payout submission outcome is unknown")
  }

  /** A change that is refused leaves the settlement as it was. */
  function Changed(v: Value, change: Change): Value {
    match RunChange(v, change)
    case Ok(w) => w
    case Err(_) => v
  }

  lemma TwoSteps(v: Value, first: Op, second: Op)
    ensures Steps(v, [first, second]) == if Step(v, first).Ok? then Step(Step(v, first).value, second) else Step(v, first)
  {
    assert [first, second][1..] == [second];
    if Step(v, first).Ok? { OneStep(Step(v, first).value, second); }
  }

  lemma ThreeSteps(v: Value, a: Op, b: Op, c: Op)
    ensures Steps(v, [a, b, c]) == if Step(v, a).Ok? then Steps(Step(v, a).value, [b, c]) else Step(v, a)
  {
    assert [a, b, c][1..] == [b, c];
  }

  lemma ObservationSettles(v: Value, o: Observation)
    requires Valid(v) && v.prepared.Some? && !o.NotFound?
    ensures ObservationLeaves(v, o, Changed(v, ObservationChange(o)))
  {
    match o
    case Confirmed(x) =>
      CanonicalHashParsesToItself(x);
      OneStep(v, OpConfirmPaid(x));
      TwoSteps(v, OpRecordSubmission(x), OpConfirmPaid(x));
      ThreeSteps(v, OpRecordDispatchStarted, OpRecordSubmission(x), OpConfirmPaid(x));
      if v.state.ProofsReserved? { TwoSteps(RecordDispatchStarted(v).value, OpRecordSubmission(x), OpConfirmPaid(x)); }
    case Pending(x) =>
      CanonicalHashParsesToItself(x);
      OneStep(v, OpRecordSubmission(x));
      TwoSteps(v, OpRecordDispatchStarted, OpRecordSubmission(x));
    case ProvablyFailed(x, reason) =>
      CanonicalHashParsesToItself(x);
      OneStep(v, OpRecordObservedFailure(x, reason));
  }

  lemma SubmissionSettles(v: Value, r: SubmitResult)
    requires v.state.ProofsReserved? && DispatchStarted(v)
    ensures SubmissionLeaves(v, r, Changed(v, SubmitChange(r, v.prepared.value.hash)))
  {
    var h := v.prepared.value.hash;
    CanonicalHashParsesToItself(h);
    OneStep(v, OpRecordSubmission(h));
    TwoSteps(v, OpRecordSubmission(h), OpConfirmPaid(h));
    match r
    case ProvablyRejected(reason) => OneStep(v, OpRecordDispatchRejected(reason));
    case Ambiguous(reason) => OneStep(v, OpRequireAttention(reason));
    case SubmitError => OneStep(v, OpRequireAttention("payout submission outcome is unknown"));
    case _ =>
  }

  // ---------------------------------------------------------------- the table

  /** A reconciliation: what the observation makes of the settlement, if the rail answered. */
  predicate CheckLeaves(v: Value, env: Environment, w: Value)
    requires v.prepared.Some?
  {
    if env.observed.None? then w == v else ObservationLeaves(v, env.observed.value, w)
  }

  /** From the prepared transaction on: observed first, and sent, after its mark, exactly when the rail knows nothing of it. */
  predicate DispatchLeaves(v: Value, env: Environment, w: Value, sent: Option<(Hash, string)>)
    requires v.prepared.Some?
  {
    if env.observed == Some(NotFound) then
      && sent == Some((v.prepared.value.hash, v.prepared.value.envelope))
      && SubmissionLeaves(v.(prepared := Marked(v)), env.submitted, w)
    else sent == None && CheckLeaves(v, env, w)
  }

  /** A whole drive: terminal payouts are left alone, dispatched ones only observed, others prepared once and dispatched. */
  predicate DriveLeaves(v: Value, env: Environment, w: Value, sent: Option<(Hash, string)>) {
    match v.state
    case Paid(_) => w == v && sent == None
    case Failed(_) => w == v && sent == None
    case Submitted(_) => sent == None && v.prepared.Some? && CheckLeaves(v, env, w)
    case NeedsAttention(_) => sent == None && v.prepared.Some? && CheckLeaves(v, env, w)
    case _ =>
      if v.prepared.Some? then DispatchLeaves(v.(state := ProofsReserved), env, w, sent)
      else if env.signed.None? then w == Value(Failed("payout preparation failed"), None) && sent == None
      else if IsBlank(env.signed.value.1) then w == Value(ProofsReserved, None) && sent == None
      else DispatchLeaves(Value(ProofsReserved, Some(Prepared(env.signed.value.0, env.signed.value.1, false))), env, w, sent)
  }

  /** Every file write of the drive succeeds. */
  predicate AllPersist(env: Environment) {
    env.onReserve.Persisted? && env.onPrepare.Persisted? && env.onMark.Persisted? && env.onApply.Persisted?
  }

  function Put(j: Journal, q: QuoteId, w: Value): Journal
    requires q in j.melt
  {
    j.(melt := j.melt[q := j.melt[q].(settlement := w)])
  }

  /** Memory differs in this one settlement; the file follows memory as soon as anything changed. */
  predicate Lands(s: Store, q: QuoteId, w: Value, u: Store) {
    && q in s.mem.melt && u.mem == Put(s.mem, q, w)
    && (u.disk == u.mem || (u.disk == s.disk && w == s.mem.melt[q].settlement))
  }

  lemma LandsAgain(s: Store, q: QuoteId, a: Value, t: Store, b: Value, u: Store)
    requires Lands(s, q, a, t) && Lands(t, q, b, u)
    ensures Lands(s, q, b, u)
  {
  }

  lemma ChangeLands(s: Store, q: QuoteId, change: Change)
    requires q in s.mem.melt
    ensures var v, (u, result) := s.mem.melt[q].settlement, Commit(s, UpdateSettlement(q, change), Persisted);
            && Lands(s, q, Changed(v, change), u)
            && (result.Ok? <==> RunChange(v, change).Ok?)
  {
    hide RunChange;
    var v := s.mem.melt[q].settlement;
    assert Put(s.mem, q, v) == s.mem by { assert s.mem.melt[q := s.mem.melt[q].(settlement := v)] == s.mem.melt; }
  }

  lemma ApplyingLands(s: Store, q: QuoteId, change: Change, env: Environment, sent: Option<(Hash, string)>)
    requires q in s.mem.melt && env.onApply.Persisted?
    ensures var g := Alone(Progress(s, Applying(change), sent), q, env);
            g.sent == sent && Lands(s, q, Changed(s.mem.melt[q].settlement, change), g.store)
  {
    hide Commit, Lands, Changed;
    var g := Progress(s, Applying(change), sent);
    Unfolds(g, q, env);
    ChangeLands(s, q, change);
  }

  lemma StaysLands(s: Store, q: QuoteId)
    requires q in s.mem.melt
    ensures Lands(s, q, s.mem.melt[q].settlement, s)
  {
    assert s.mem.melt[q := s.mem.melt[q].(settlement := s.mem.melt[q].settlement)] == s.mem.melt;
  }

  /** The run ends on this store with this envelope sent. */
  ghost predicate Leaves(g: Progress, q: QuoteId, env: Environment, w: Value, u: Store, sent: Option<(Hash, string)>) {
    Alone(g, q, env).store == u && Alone(g, q, env).sent == sent && Lands(g.store, q, w, u)
  }

  lemma ReconcileLands(s: Store, q: QuoteId, env: Environment) returns (w: Value, u: Store)
    requires q in s.mem.melt && Valid(s.mem.melt[q].settlement) && s.mem.melt[q].settlement.prepared.Some? && env.onApply.Persisted?
    ensures Leaves(Progress(s, ReconcileStart, None), q, env, w, u, None)
    ensures CheckLeaves(s.mem.melt[q].settlement, env, w)
  {
    hide Commit, Lands, Changed, ObservationChange, ObservationLeaves, Valid;
    var v, g := s.mem.melt[q].settlement, Progress(s, ReconcileStart, None);
    Unfolds(g, q, env);
    Unfolds(StepAlone(g, q, env), q, env);
    if env.observed.Some? && !env.observed.value.NotFound? {
      var change := ObservationChange(env.observed.value);
      ApplyingLands(s, q, change, env, None);
      ObservationSettles(v, env.observed.value);
      w, u := Changed(v, change), Alone(Progress(s, Applying(change), None), q, env).store;
    } else {
      StaysLands(s, q);
      w, u := v, s;
      if env.observed.Some? { NothingFound(v, env.observed.value); }
    }
  }

  lemma NothingFound(v: Value, o: Observation)
    requires v.prepared.Some? && o.NotFound?
    ensures ObservationLeaves(v, o, v)
  {
  }

  lemma MarkSettles(v: Value)
    requires v.state.ProofsReserved? && v.prepared.Some?
    ensures RunChange(v, Transition(OpRecordDispatchStarted)) == Ok(v.(prepared := Marked(v)))
  {
    OneStep(v, OpRecordDispatchStarted);
  }

  /** The settlement in the store is this one. */
  predicate Holds(s: Store, q: QuoteId, v: Value) {
    q in s.mem.melt && s.mem.melt[q].settlement == v
  }

  lemma LandedHolds(s: Store, q: QuoteId, w: Value, u: Store)
    requires Lands(s, q, w, u)
    ensures Holds(u, q, w)
  {
  }

  /** A committed change leads to the next position. */
  lemma UpdatedLands(g: Progress, q: QuoteId, change: Change, next: Pc, w: Value)
    requires q in g.store.mem.melt && RunChange(g.store.mem.melt[q].settlement, change) == Ok(w)
    ensures var h := Updated(g, q, change, Persisted, next);
            h.pc == next && h.sent == g.sent && Lands(g.store, q, w, h.store) && Holds(h.store, q, w)
  {
    hide RunChange, Commit, Lands;
    ChangeLands(g.store, q, change);
    LandedHolds(g.store, q, w, Updated(g, q, change, Persisted, next).store);
  }

  /** A refused change ends the drive on the store it found. */
  lemma RefusedEnds(g: Progress, q: QuoteId, change: Change, next: Pc, v: Value)
    requires Holds(g.store, q, v) && RunChange(v, change).Err?
    ensures Updated(g, q, change, Persisted, next) == g.(pc := Finished)
  {
    hide RunChange;
  }

  lemma Onward(g: Progress, h: Progress, q: QuoteId, env: Environment, a: Value, b: Value, u: Store, sent: Option<(Hash, string)>)
    requires !g.pc.Finished? && StepAlone(g, q, env) == h && Lands(g.store, q, a, h.store) && Leaves(h, q, env, b, u, sent)
    ensures Leaves(g, q, env, b, u, sent)
  {
    hide Lands, StepAlone;
    Unfolds(g, q, env);
    LandsAgain(g.store, q, a, h.store, b, u);
  }

  lemma SubmitLands(s: Store, q: QuoteId, v: Value, hash: Hash, envelope: string, env: Environment) returns (w: Value, u: Store)
    requires Holds(s, q, v) && v.state.ProofsReserved? && DispatchStarted(v) && v.prepared.value.hash == hash && env.onApply.Persisted?
    ensures Leaves(Progress(s, DriveSubmit(hash, envelope), None), q, env, w, u, Some((hash, envelope)))
    ensures SubmissionLeaves(v, env.submitted, w)
  {
    hide Commit, Lands, Changed, SubmitChange, SubmissionLeaves;
    var sent := Some((hash, envelope));
    var change := SubmitChange(env.submitted, hash);
    Unfolds(Progress(s, DriveSubmit(hash, envelope), None), q, env);
    Unfolds(Progress(s, DriveAwait(hash, envelope), sent), q, env);
    ApplyingLands(s, q, change, env, sent);
    SubmissionSettles(v, env.submitted);
    w, u := Changed(v, change), Alone(Progress(s, Applying(change), sent), q, env).store;
  }

  /** From the reload before dispatch on. */
  lemma DispatchLands(s: Store, q: QuoteId, v: Value, env: Environment) returns (w: Value, u: Store, sent: Option<(Hash, string)>)
    requires Holds(s, q, v) && Valid(v) && v.state.ProofsReserved? && v.prepared.Some?
    requires env.onMark.Persisted? && env.onApply.Persisted?
    ensures Leaves(Progress(s, DriveLoad, None), q, env, w, u, sent) && DispatchLeaves(v, env, w, sent)
  {
    hide Commit, Lands, Changed, ObservationChange, ObservationLeaves, SubmissionLeaves, Leaves, Updated;
    var hash, envelope := v.prepared.value.hash, v.prepared.value.envelope;
    var g, o := Progress(s, DriveLoad, None), Progress(s, DriveObserve(hash, envelope), None);
    StaysLands(s, q);
    if env.observed == Some(NotFound) {
      var m := Progress(s, DriveMark(hash, envelope), None);
      var marked := v.(prepared := Marked(v));
      MarkSettles(v);
      UpdatedLands(m, q, Transition(OpRecordDispatchStarted), DriveSubmit(hash, envelope), marked);
      var h := StepAlone(m, q, env);
      w, u := SubmitLands(h.store, q, marked, hash, envelope, env);
      sent := Some((hash, envelope));
      Onward(m, h, q, env, marked, w, u, sent);
      Onward(o, m, q, env, v, w, u, sent);
    } else {
      w, u := ObservedLands(s, q, v, hash, envelope, env);
      sent := None;
    }
    Onward(g, o, q, env, v, w, u, sent);
  }

  lemma ObservedLands(s: Store, q: QuoteId, v: Value, hash: Hash, envelope: string, env: Environment) returns (w: Value, u: Store)
    requires Holds(s, q, v) && Valid(v) && v.prepared.Some? && env.onApply.Persisted? && env.observed != Some(NotFound)
    ensures Leaves(Progress(s, DriveObserve(hash, envelope), None), q, env, w, u, None) && CheckLeaves(v, env, w)
  {
    hide Commit, Lands, Changed, ObservationChange, ObservationLeaves, Valid;
    Unfolds(Progress(s, DriveObserve(hash, envelope), None), q, env);
    if env.observed.Some? {
      var change := ObservationChange(env.observed.value);
      ApplyingLands(s, q, change, env, None);
      ObservationSettles(v, env.observed.value);
      w, u := Changed(v, change), Alone(Progress(s, Applying(change), None), q, env).store;
    } else {
      StaysLands(s, q);
      w, u := v, s;
    }
  }

  lemma PreparationSettles(v: Value, hash: Hash, envelope: string)
    requires v.state.ProofsReserved? && v.prepared.None?
    ensures RunChange(v, Transition(OpRecordPrepared(hash, envelope)))
            == if IsBlank(envelope) then Err(EmptySignedEnvelope) else Ok(v.(prepared := Some(Prepared(hash, envelope, false))))
    ensures RunChange(v, Transition(OpRecordProvableFailure("payout preparation failed")))
            == Ok(v.(state := Failed("payout preparation failed")))
  {
    CanonicalHashParsesToItself(hash);
    OneStep(v, OpRecordPrepared(hash, envelope));
    OneStep(v, OpRecordProvableFailure("payout preparation failed"));
  }

  /** From the preparation on. */
  lemma PreparationLands(s: Store, q: QuoteId, v: Value, env: Environment) returns (w: Value, u: Store, sent: Option<(Hash, string)>)
    requires Holds(s, q, v) && v == Value(ProofsReserved, None)
    requires env.onPrepare.Persisted? && env.onMark.Persisted? && env.onApply.Persisted?
    ensures Leaves(Progress(s, DrivePrepare, None), q, env, w, u, sent) && DriveLeaves(v, env, w, sent)
  {
    hide Commit, Lands, Leaves, Updated, DispatchLeaves, RunChange;
    StaysLands(s, q);
    var g := Progress(s, DrivePrepare, None);
    if env.signed.None? {
      var f, failed := Progress(s, DrivePrepareFailed, None), v.(state := Failed("payout preparation failed"));
      var change := Transition(OpRecordProvableFailure("payout preparation failed"));
      PreparationSettles(v, seq(64, _ => '0'), "");
      UpdatedLands(f, q, change, DriveLoad, failed);
      var h := StepAlone(f, q, env);
      w, u, sent := failed, h.store, None;
      FailedEnds(h, q, failed, env);
      Onward(f, h, q, env, failed, w, u, sent);
      Onward(g, f, q, env, v, w, u, sent);
    } else {
      var (hash, envelope) := env.signed.value;
      var r, change := Progress(s, DriveRecord(hash, envelope), None), Transition(OpRecordPrepared(hash, envelope));
      PreparationSettles(v, hash, envelope);
      if IsBlank(envelope) {
        RefusedEnds(r, q, change, DriveLoad, v);
        w, u, sent := v, s, None;
        EndsHere(Progress(s, Finished, None), q, env, v);
        Onward(r, Progress(s, Finished, None), q, env, v, w, u, sent);
      } else {
        var prepared := v.(prepared := Some(Prepared(hash, envelope, false)));
        UpdatedLands(r, q, change, DriveLoad, prepared);
        var h := StepAlone(r, q, env);
        w, u, sent := DispatchLands(h.store, q, prepared, env);
        Onward(r, h, q, env, prepared, w, u, sent);
      }
      Onward(g, r, q, env, v, w, u, sent);
    }
  }

  lemma EndsHere(g: Progress, q: QuoteId, env: Environment, v: Value)
    requires g.pc.Finished? && Holds(g.store, q, v)
    ensures Leaves(g, q, env, v, g.store, g.sent)
  {
    hide Lands;
    StaysLands(g.store, q);
  }

  /** A failed payout is not loaded for dispatch. */
  lemma FailedEnds(g: Progress, q: QuoteId, v: Value, env: Environment)
    requires g.pc.DriveLoad? && Holds(g.store, q, v) && v.state.Failed?
    ensures Leaves(g, q, env, v, g.store, g.sent)
  {
    hide Lands, Leaves;
    StaysLands(g.store, q);
    EndsHere(g.(pc := Finished), q, env, v);
    Onward(g, g.(pc := Finished), q, env, v, v, g.store, g.sent);
  }

  /** From the state just read on. */
  lemma AfterReadLands(s: Store, q: QuoteId, v: Value, env: Environment) returns (w: Value, u: Store, sent: Option<(Hash, string)>)
    requires Holds(s, q, v) && Valid(v) && !v.state.Unpaid? && AllPersist(env)
    ensures Leaves(Progress(s, AfterRead(v), None), q, env, w, u, sent) && DriveLeaves(v, env, w, sent)
  {
    hide Lands, Leaves, DispatchLeaves, CheckLeaves;
    if v.state.Paid? || v.state.Failed? {
      EndsHere(Progress(s, Finished, None), q, env, v);
      w, u, sent := v, s, None;
    } else if v.state.Submitted? || v.state.NeedsAttention? {
      w, u := ReconcileLands(s, q, env);
      sent := None;
    } else if v.prepared.Some? {
      w, u, sent := DispatchLands(s, q, v, env);
    } else {
      w, u, sent := PreparationLands(s, q, v, env);
    }
  }

  lemma ReserveSettles(v: Value)
    requires v.state.Unpaid?
    ensures RunChange(v, Transition(OpReserveProofs)) == Ok(v.(state := ProofsReserved))
  {
    OneStep(v, OpReserveProofs);
  }

  lemma DriveRun(s: Store, q: QuoteId, env: Environment) returns (w: Value, u: Store, sent: Option<(Hash, string)>)
    requires q in s.mem.melt && Valid(s.mem.melt[q].settlement) && AllPersist(env)
    ensures Leaves(Progress(s, DriveStart, None), q, env, w, u, sent) && DriveLeaves(s.mem.melt[q].settlement, env, w, sent)
  {
    hide Lands, Leaves, DispatchLeaves, CheckLeaves, RunChange, Updated;
    var v, g := s.mem.melt[q].settlement, Progress(s, DriveStart, None);
    StaysLands(s, q);
    if v.state.Unpaid? {
      var reserved, r := v.(state := ProofsReserved), Progress(s, DriveReserve, None);
      ReserveSettles(v);
      UpdatedLands(r, q, Transition(OpReserveProofs), DriveReread, reserved);
      var h := StepAlone(r, q, env);
      StaysLands(h.store, q);
      w, u, sent := AfterReadLands(h.store, q, reserved, env);
      Onward(h, Progress(h.store, AfterRead(reserved), None), q, env, reserved, w, u, sent);
      Onward(r, h, q, env, reserved, w, u, sent);
      Onward(g, r, q, env, v, w, u, sent);
    } else {
      w, u, sent := AfterReadLands(s, q, v, env);
      Onward(g, Progress(s, AfterRead(v), None), q, env, v, w, u, sent);
    }
  }

  /**
   * One whole drive, when every file write succeeds, leaves exactly the settlement of the table and has sent exactly
   * the prepared envelope, or nothing; no other record changes and the file agrees with memory.
   */
  lemma DriveIsDetermined(s: Store, q: QuoteId, env: Environment)
    requires q in s.mem.melt && Valid(s.mem.melt[q].settlement) && AllPersist(env)
    ensures var v, g := s.mem.melt[q].settlement, Alone(Progress(s, DriveStart, None), q, env);
            && q in g.store.mem.melt && Lands(s, q, g.store.mem.melt[q].settlement, g.store)
            && DriveLeaves(v, env, g.store.mem.melt[q].settlement, g.sent)
  {
    hide Lands, DriveLeaves, Alone;
    var w, u, sent := DriveRun(s, q, env);
    LandedHolds(s, q, w, u);
  }

  /** A reconciliation leaves exactly what the observation makes of a prepared settlement, and sends nothing. */
  lemma ReconciliationIsDetermined(s: Store, q: QuoteId, env: Environment)
    requires q in s.mem.melt && Valid(s.mem.melt[q].settlement) && s.mem.melt[q].settlement.prepared.Some? && env.onApply.Persisted?
    ensures var v, g := s.mem.melt[q].settlement, Alone(Progress(s, ReconcileStart, None), q, env);
            && q in g.store.mem.melt && Lands(s, q, g.store.mem.melt[q].settlement, g.store)
            && CheckLeaves(v, env, g.store.mem.melt[q].settlement) && g.sent == None
  {
    hide Lands, CheckLeaves, Alone;
    var w, u := ReconcileLands(s, q, env);
    LandedHolds(s, q, w, u);
  }

  /** A check reconciles a live prepared payout and leaves any other alone. */
  lemma CheckIsDetermined(s: Store, q: QuoteId, env: Environment)
    requires q in s.mem.melt && Valid(s.mem.melt[q].settlement) && env.onApply.Persisted?
    ensures var v, g := s.mem.melt[q].settlement, Alone(Progress(s, CheckStart, None), q, env);
            && q in g.store.mem.melt && Lands(s, q, g.store.mem.melt[q].settlement, g.store)
            && if Live(v.state) && v.prepared.Some? then CheckLeaves(v, env, g.store.mem.melt[q].settlement)
               else g.store.mem.melt[q].settlement == v
  {
    hide Lands, CheckLeaves;
    Unfolds(Progress(s, CheckStart, None), q, env);
    if Live(s.mem.melt[q].settlement.state) && s.mem.melt[q].settlement.prepared.Some? {
      ReconciliationIsDetermined(s, q, env);
    } else {
      StaysLands(s, q);
    }
  }

  /** The part of a drive that follows the reservation, prepared before or not. */
  lemma PreparationIsDetermined(s: Store, q: QuoteId, prepared: bool, env: Environment)
    requires q in s.mem.melt && Valid(s.mem.melt[q].settlement) && AllPersist(env)
    requires s.mem.melt[q].settlement.state.ProofsReserved? && (prepared <==> s.mem.melt[q].settlement.prepared.Some?)
    ensures var v, g := s.mem.melt[q].settlement, Alone(Progress(s, if prepared then DriveLoad else DrivePrepare, None), q, env);
            && q in g.store.mem.melt && Lands(s, q, g.store.mem.melt[q].settlement, g.store)
            && DriveLeaves(v, env, g.store.mem.melt[q].settlement, g.sent)
  {
    hide Lands, DispatchLeaves, Alone;
    var v := s.mem.melt[q].settlement;
    var w, u, sent;
    if prepared { w, u, sent := DispatchLands(s, q, v, env); } else { w, u, sent := PreparationLands(s, q, v, env); }
    LandedHolds(s, q, w, u);
  }
}
