/**
 * Concurrent payout drivers (processor.rs). Every store access and every rail
 * call of drive_settlement, reconcile_settlement and check_outgoing_payment is
 * one atomic step; any number of drivers interleave, are cancelled, and are
 * lost in crashes, while other store traffic and the network move on their own.
 */
module Payouts {
  import opened Settlements
  import opened StateStores

  // ------------------------------------------------------------- the rail

  /**
   * What the payout network knows. `issued` says which quote each prepared hash
   * was signed for, `failed` the hashes that can no longer be included.
   */
  datatype Rail = Rail(issued: map<Hash, QuoteId>, submitted: set<Hash>, confirmed: set<Hash>, failed: set<Hash>)

  datatype Observation = NotFound | Pending(hash: Hash) | Confirmed(hash: Hash) | ProvablyFailed(hash: Hash, reason: string)

  datatype SubmitResult =
    | Accepted | SubmitConfirmed | ProvablyRejected(reason: string) | Ambiguous(reason: string) | SubmitError

  // ---------------------------------------------------------------- drivers

  datatype Pc =
    | DriveStart
    | DriveReserve
    | DriveReread
    | DrivePrepare
    | DriveRecord(hash: Hash, envelope: string)
    | DrivePrepareFailed
    | DriveLoad
    | DriveObserve(hash: Hash, envelope: string)
    | DriveMark(hash: Hash, envelope: string)
    | DriveSubmit(hash: Hash, envelope: string)
    | DriveAwait(hash: Hash, envelope: string)
    | CheckStart
    | ReconcileStart
    | ReconcileObserve(hash: Hash)
    | Applying(change: Change)
    | Finished

  datatype Driver = Driver(quote: QuoteId, pc: Pc)

  /** One envelope handed to the network. */
  datatype Dispatch = Dispatch(quote: QuoteId, hash: Hash, envelope: string)

  datatype System = System(store: Store, drivers: map<nat, Driver>, rail: Rail, dispatches: seq<Dispatch>)

  const Initial := System(Store(EmptyJournal, EmptyJournal), map[], Rail(map[], {}, {}, {}), [])

  /** The environment's answer that a driver step consumes. */
  datatype Answer =
    | Nothing
    | Persisting(persist: Persist)
    | Signed(hash: Hash, envelope: string)
    | PrepareError
    | Observes(observation: Observation)
    | ObserveError
    | Submits(result: SubmitResult)

  datatype Action =
    | Launch(driver: nat, quote: QuoteId, check: bool)
    | Move(driver: nat, answer: Answer)
    | Cancel(driver: nat)
    | CrashAndReopen
    | OtherCall(update: Update, persist: Persist)
    | NetworkConfirms(hash: Hash)
    | NetworkFails(hash: Hash)

  /** The dispatch on the state just read, in drive_settlement. */
  function AfterRead(v: Value): Pc {
    if v.state.Paid? || v.state.Failed? then Finished
    else if v.state.Submitted? || v.state.NeedsAttention? then ReconcileStart
    else if v.prepared.Some? then DriveLoad
    else DrivePrepare
  }

  function ObservationChange(o: Observation): Change
    requires !o.NotFound?
  {
    match o
    case Pending(h) => ObservedPending(h)
    case Confirmed(h) => ObservedConfirmed(h)
    case ProvablyFailed(h, reason) => Transition(OpRecordObservedFailure(h, reason))
  }

  function SubmitChange(r: SubmitResult, hash: Hash): Change {
    match r
    case Accepted => Transition(OpRecordSubmission(hash))
    case SubmitConfirmed => SubmitAndConfirm(hash)
    case ProvablyRejected(reason) => Transition(OpRecordDispatchRejected(reason))
    case Ambiguous(reason) => Transition(OpRequireAttention(reason))
    case SubmitError => Transition(OpRequireAttention("payout submission outcome is unknown"))
  }

  function Goto(s: System, d: nat, pc: Pc): System
    requires d in s.drivers
  {
    s.(drivers := s.drivers[d := s.drivers[d].(pc := pc)])
  }

  /** update_settlement: an error of any kind ends the driver. */
  ghost function UpdateThen(s: System, d: nat, change: Change, answer: Answer, next: Pc): System
    requires d in s.drivers && answer.Persisting?
  {
    var (store, result) := Commit(s.store, UpdateSettlement(s.drivers[d].quote, change), answer.persist);
    Goto(s.(store := store), d, if result.Ok? then next else Finished)
  }

  /** The answers the rail contract and the driver's position allow. */
  predicate Allowed(s: System, d: nat, answer: Answer) {
    && d in s.drivers
    && var q := s.drivers[d].quote;
       match s.drivers[d].pc
       case DriveReserve => answer.Persisting?
       case DriveRecord(_, _) => answer.Persisting?
       case DrivePrepareFailed => answer.Persisting?
       case DriveMark(_, _) => answer.Persisting?
       case Applying(_) => answer.Persisting?
       case DrivePrepare =>
         answer.PrepareError?
         || (answer.Signed? && !IsBlank(answer.envelope)
             && (answer.hash in s.rail.issued ==> s.rail.issued[answer.hash] == q))
       case DriveObserve(_, _) => ObservationAllowed(s.rail, answer)
       case ReconcileObserve(_) => ObservationAllowed(s.rail, answer)
       case DriveAwait(h, _) =>
         && answer.Submits?
         && (answer.result.SubmitConfirmed? ==> h in s.rail.confirmed)
         && (answer.result.ProvablyRejected? ==> h in s.rail.failed)
       case Finished => false
       case _ => answer.Nothing?
  }

  predicate ObservationAllowed(rail: Rail, answer: Answer) {
    answer.ObserveError?
    || (answer.Observes?
        && (answer.observation.Confirmed? ==> answer.observation.hash in rail.confirmed)
        && (answer.observation.ProvablyFailed? ==> answer.observation.hash in rail.failed))
  }

  ghost function Moved(s: System, d: nat, answer: Answer): System
    requires Allowed(s, d, answer)
  {
    var q := s.drivers[d].quote;
    var melt := s.store.mem.melt;
    match s.drivers[d].pc
    case DriveStart =>
      if q !in melt then Goto(s, d, Finished)
      else if melt[q].settlement.state.Unpaid? then Goto(s, d, DriveReserve)
      else Goto(s, d, AfterRead(melt[q].settlement))
    case DriveReserve => UpdateThen(s, d, Transition(OpReserveProofs), answer, DriveReread)
    case DriveReread => Goto(s, d, if q !in melt then Finished else AfterRead(melt[q].settlement))
    case DrivePrepare =>
      if answer.PrepareError? then Goto(s, d, DrivePrepareFailed)
      else Goto(s.(rail := s.rail.(issued := s.rail.issued[answer.hash := q])), d,
                DriveRecord(answer.hash, answer.envelope))
    case DriveRecord(h, e) => UpdateThen(s, d, Transition(OpRecordPrepared(h, e)), answer, DriveLoad)
    case DrivePrepareFailed =>
      UpdateThen(s, d, Transition(OpRecordProvableFailure("payout preparation failed")), answer, DriveLoad)
    case DriveLoad =>
      if q !in melt || melt[q].settlement.state.Failed? || melt[q].settlement.prepared.None? then Goto(s, d, Finished)
      else
        var p := melt[q].settlement.prepared.value;
        Goto(s, d, DriveObserve(p.hash, p.envelope))
    case DriveObserve(h, e) =>
      if answer.ObserveError? then Goto(s, d, Finished)
      else if answer.observation.NotFound? then Goto(s, d, DriveMark(h, e))
      else Goto(s, d, Applying(ObservationChange(answer.observation)))
    case DriveMark(h, e) => UpdateThen(s, d, Transition(OpRecordDispatchStarted), answer, DriveSubmit(h, e))
    case DriveSubmit(h, e) =>
      Goto(s.(rail := s.rail.(submitted := s.rail.submitted + {h}),
              dispatches := s.dispatches + [Dispatch(q, h, e)]), d, DriveAwait(h, e))
    case DriveAwait(h, e) => Goto(s, d, Applying(SubmitChange(answer.result, h)))
    case CheckStart =>
      if q in melt && melt[q].settlement.prepared.Some?
         && (melt[q].settlement.state.ProofsReserved? || melt[q].settlement.state.Submitted?
             || melt[q].settlement.state.NeedsAttention?)
      then Goto(s, d, ReconcileStart)
      else Goto(s, d, Finished)
    case ReconcileStart =>
      if q !in melt || melt[q].settlement.prepared.None? then Goto(s, d, Finished)
      else Goto(s, d, ReconcileObserve(melt[q].settlement.prepared.value.hash))
    case ReconcileObserve(h) =>
      if answer.ObserveError? || answer.observation.NotFound? then Goto(s, d, Finished)
      else Goto(s, d, Applying(ObservationChange(answer.observation)))
    case Applying(change) => UpdateThen(s, d, change, answer, Finished)
  }

  ghost predicate Enabled(s: System, step: Action) {
    match step
    case Launch(d, _, _) => d !in s.drivers
    case Move(d, answer) => Allowed(s, d, answer)
    case Cancel(d) => d in s.drivers
    case CrashAndReopen => true
    case OtherCall(u, _) => WellFormed(u) && !u.UpdateSettlement?
    case NetworkConfirms(h) => h in s.rail.submitted && h !in s.rail.failed
    case NetworkFails(h) => h !in s.rail.confirmed
  }

  ghost function Next(s: System, step: Action): System
    requires Enabled(s, step)
  {
    match step
    case Launch(d, q, check) => s.(drivers := s.drivers[d := Driver(q, if check then CheckStart else DriveStart)])
    case Move(d, answer) => Moved(s, d, answer)
    case Cancel(d) => s.(drivers := s.drivers - {d})
    case CrashAndReopen => s.(store := Store(s.store.disk, s.store.disk), drivers := map[])
    case OtherCall(u, p) => s.(store := Commit(s.store, u, p).0)
    case NetworkConfirms(h) => s.(rail := s.rail.(confirmed := s.rail.confirmed + {h}))
    case NetworkFails(h) => s.(rail := s.rail.(failed := s.rail.failed + {h}))
  }

  ghost predicate IsRun(trace: seq<System>, steps: seq<Action>) {
    && |trace| == |steps| + 1
    && trace[0] == Initial
    && forall i :: 0 <= i < |steps| ==> Enabled(trace[i], steps[i]) && trace[i + 1] == Next(trace[i], steps[i])
  }

  // ------------------------------------------------------------ invariants

  ghost predicate GoodSettlement(q: QuoteId, v: Value, rail: Rail) {
    && Valid(v)
    && (v.prepared.Some? ==> v.prepared.value.hash in rail.issued && rail.issued[v.prepared.value.hash] == q)
    && (v.state.Paid? ==> v.state.hash in rail.confirmed)
    && (v.state.Failed? && DispatchStarted(v) ==> v.prepared.value.hash in rail.failed)
  }

  ghost predicate GoodJournal(j: Journal, rail: Rail) {
    forall q :: q in j.melt ==> GoodSettlement(q, j.melt[q].settlement, rail)
  }

  predicate Signs(j: Journal, q: QuoteId, hash: Hash, envelope: string) {
    && q in j.melt && j.melt[q].settlement.prepared.Some?
    && j.melt[q].settlement.prepared.value.hash == hash
    && j.melt[q].settlement.prepared.value.envelope == envelope
  }

  predicate Dispatching(j: Journal, q: QuoteId, hash: Hash, envelope: string) {
    Signs(j, q, hash, envelope) && DispatchStarted(j.melt[q].settlement)
  }

  /**
   * The rail facts that make one transition of quote `q` truthful. A rejection names no hash of its
   * own, so it is judged against the settlement, in TruthfulChange.
   */
  predicate TruthfulOp(q: QuoteId, op: Op, rail: Rail) {
    match op
    case OpRecordPrepared(raw, _) =>
      ParseHash(raw).Ok? ==> ParseHash(raw).value in rail.issued && rail.issued[ParseHash(raw).value] == q
    case OpConfirmPaid(raw) => ParseHash(raw).Ok? ==> ParseHash(raw).value in rail.confirmed
    case OpRecordObservedFailure(raw, _) => ParseHash(raw).Ok? ==> ParseHash(raw).value in rail.failed
    case OpRecordDispatchRejected(_) => false
    case _ => true
  }

  predicate TruthfulChange(j: Journal, q: QuoteId, change: Change, rail: Rail) {
    match change
    case Transition(OpRecordDispatchRejected(_)) =>
      q in j.melt && j.melt[q].settlement.prepared.Some? && j.melt[q].settlement.prepared.value.hash in rail.failed
    case Transition(op) => TruthfulOp(q, op, rail)
    case SubmitAndConfirm(h) => h in rail.confirmed
    case ObservedPending(_) => true
    case ObservedConfirmed(h) => h in rail.confirmed
  }

  predicate GoodDriver(driver: Driver, mem: Journal, rail: Rail) {
    match driver.pc
    case DriveRecord(h, _) => h in rail.issued && rail.issued[h] == driver.quote
    case DriveObserve(h, e) => Signs(mem, driver.quote, h, e)
    case DriveMark(h, e) => Signs(mem, driver.quote, h, e)
    case DriveSubmit(h, e) => Dispatching(mem, driver.quote, h, e)
    case DriveAwait(h, e) => Dispatching(mem, driver.quote, h, e)
    case Applying(change) => TruthfulChange(mem, driver.quote, change, rail)
    case _ => true
  }

  ghost predicate GoodDrivers(s: System) {
    forall d :: d in s.drivers ==> GoodDriver(s.drivers[d], s.store.mem, s.rail)
  }

  ghost predicate GoodRail(rail: Rail, dispatches: seq<Dispatch>) {
    && rail.confirmed <= rail.submitted
    && rail.confirmed !! rail.failed
    && (forall h :: h in rail.submitted ==> exists i :: 0 <= i < |dispatches| && dispatches[i].hash == h)
  }

  ghost predicate DispatchesDurable(mem: Journal, dispatches: seq<Dispatch>) {
    forall i :: 0 <= i < |dispatches| ==>
      Dispatching(mem, dispatches[i].quote, dispatches[i].hash, dispatches[i].envelope)
  }

  ghost predicate Invariant(s: System) {
    && StoreInvariant(s.store)
    && GoodJournal(s.store.mem, s.rail) && GoodJournal(s.store.disk, s.rail)
    && GoodRail(s.rail, s.dispatches)
    && DispatchesDurable(s.store.mem, s.dispatches)
    && GoodDrivers(s)
  }

  // ------------------------------------------- one settlement at a time

  /** Rail knowledge only grows. */
  predicate Learns(a: Rail, b: Rail) {
    && (forall h :: h in a.issued ==> h in b.issued && b.issued[h] == a.issued[h])
    && a.submitted <= b.submitted && a.confirmed <= b.confirmed && a.failed <= b.failed
  }

  lemma TruthfulStep(q: QuoteId, v: Value, op: Op, rail: Rail)
    requires GoodSettlement(q, v, rail) && Step(v, op).Ok?
    requires if op.OpRecordDispatchRejected? then v.prepared.Some? && v.prepared.value.hash in rail.failed
             else TruthfulOp(q, op, rail)
    ensures GoodSettlement(q, Step(v, op).value, rail)
  {
  }

  lemma {:induction false} TruthfulSteps(q: QuoteId, v: Value, ops: seq<Op>, rail: Rail)
    requires GoodSettlement(q, v, rail) && Steps(v, ops).Ok?
    requires forall i :: 0 <= i < |ops| ==> TruthfulOp(q, ops[i], rail)
    ensures GoodSettlement(q, Steps(v, ops).value, rail)
    decreases |ops|
  {
    if ops != [] {
      assert TruthfulOp(q, ops[0], rail);
      TruthfulStep(q, v, ops[0], rail);
      TruthfulSteps(q, Step(v, ops[0]).value, ops[1..], rail);
    }
  }

  lemma OneStep(v: Value, op: Op)
    ensures Steps(v, [op]) == Step(v, op)
  {
    assert [op][1..] == [];
  }

  lemma TruthfulChangeKeepsGood(j: Journal, q: QuoteId, change: Change, rail: Rail)
    requires q in j.melt && GoodSettlement(q, j.melt[q].settlement, rail)
    requires TruthfulChange(j, q, change, rail) && RunChange(j.melt[q].settlement, change).Ok?
    ensures GoodSettlement(q, RunChange(j.melt[q].settlement, change).value, rail)
  {
    var v := j.melt[q].settlement;
    match change
    case Transition(op) =>
      OneStep(v, op);
      TruthfulStep(q, v, op, rail);
    case SubmitAndConfirm(h) =>
      CanonicalHashParsesToItself(h);
      TruthfulSteps(q, v, Script(v, change), rail);
    case ObservedPending(h) =>
      TruthfulSteps(q, v, Script(v, change), rail);
    case ObservedConfirmed(h) =>
      CanonicalHashParsesToItself(h);
      TruthfulSteps(q, v, Script(v, change), rail);
  }

  lemma CommitKeepsGoodJournals(s: Store, q: QuoteId, change: Change, p: Persist, rail: Rail)
    requires StoreInvariant(s) && GoodJournal(s.mem, rail) && GoodJournal(s.disk, rail)
    requires TruthfulChange(s.mem, q, change, rail)
    ensures var after := Commit(s, UpdateSettlement(q, change), p).0;
            StoreInvariant(after) && Extends(s.mem, after.mem)
            && GoodJournal(after.mem, rail) && GoodJournal(after.disk, rail)
  {
    hide StoreInvariant, Extends, GoodSettlement, TruthfulChange, RunChange;
    AfterKeeps(s, Call(UpdateSettlement(q, change), p));
    if q in s.mem.melt && RunChange(s.mem.melt[q].settlement, change).Ok? {
      TruthfulChangeKeepsGood(s.mem, q, change, rail);
    }
  }

  // -------------------------------------------- what growth preserves

  lemma GrowthKeepsDriver(driver: Driver, a: Journal, b: Journal, ra: Rail, rb: Rail)
    requires GoodDriver(driver, a, ra) && Extends(a, b) && Learns(ra, rb)
    ensures GoodDriver(driver, b, rb)
  {
  }

  lemma GrowthKeepsDispatches(dispatches: seq<Dispatch>, a: Journal, b: Journal)
    requires DispatchesDurable(a, dispatches) && Extends(a, b)
    ensures DispatchesDurable(b, dispatches)
  {
    forall i | 0 <= i < |dispatches|
      ensures Dispatching(b, dispatches[i].quote, dispatches[i].hash, dispatches[i].envelope)
    {
      assert Dispatching(a, dispatches[i].quote, dispatches[i].hash, dispatches[i].envelope);
    }
  }

  lemma LearningKeepsJournal(j: Journal, a: Rail, b: Rail)
    requires GoodJournal(j, a) && Learns(a, b)
    ensures GoodJournal(j, b)
  {
    forall q | q in j.melt ensures GoodSettlement(q, j.melt[q].settlement, b) {
      assert GoodSettlement(q, j.melt[q].settlement, a);
    }
  }

  /** Replacing the store by an extension, the rail by a wiser one, and some drivers by good ones. */
  lemma GrowthKeepsInvariant(s: System, t: System)
    requires Invariant(s)
    requires StoreInvariant(t.store) && Extends(s.store.mem, t.store.mem)
    requires Learns(s.rail, t.rail)
    requires GoodJournal(t.store.mem, s.rail) && GoodJournal(t.store.disk, s.rail)
    requires GoodRail(t.rail, t.dispatches) && t.dispatches == s.dispatches
    requires forall k :: k in t.drivers ==>
               || (k in s.drivers && t.drivers[k] == s.drivers[k])
               || GoodDriver(t.drivers[k], t.store.mem, t.rail)
    ensures Invariant(t)
  {
    hide StoreInvariant, GoodJournal, GoodRail, Extends, Learns, GoodDriver, DispatchesDurable;
    LearningKeepsJournal(t.store.mem, s.rail, t.rail);
    LearningKeepsJournal(t.store.disk, s.rail, t.rail);
    GrowthKeepsDispatches(s.dispatches, s.store.mem, t.store.mem);
    forall k | k in t.drivers ensures GoodDriver(t.drivers[k], t.store.mem, t.rail) {
      if k in s.drivers && t.drivers[k] == s.drivers[k] {
        GrowthKeepsDriver(s.drivers[k], s.store.mem, t.store.mem, s.rail, t.rail);
      }
    }
  }

  // -------------------------------------------------------- step by step

  lemma UpdateKeepsInvariant(s: System, d: nat, change: Change, answer: Answer, next: Pc)
    requires Invariant(s) && d in s.drivers && answer.Persisting?
    requires TruthfulChange(s.store.mem, s.drivers[d].quote, change, s.rail)
    requires var (store, result) := Commit(s.store, UpdateSettlement(s.drivers[d].quote, change), answer.persist);
             result.Ok? ==> GoodDriver(s.drivers[d].(pc := next), store.mem, s.rail)
    ensures Invariant(UpdateThen(s, d, change, answer, next))
    ensures Extends(s.store.mem, UpdateThen(s, d, change, answer, next).store.mem)
  {
    hide StoreInvariant, GoodJournal, GoodRail, Extends, TruthfulChange, DispatchesDurable, Commit;
    CommitKeepsGoodJournals(s.store, s.drivers[d].quote, change, answer.persist, s.rail);
    GrowthKeepsInvariant(s, UpdateThen(s, d, change, answer, next));
  }

  lemma GotoKeepsInvariant(s: System, d: nat, pc: Pc)
    requires Invariant(s) && d in s.drivers
    requires GoodDriver(s.drivers[d].(pc := pc), s.store.mem, s.rail)
    ensures Invariant(Goto(s, d, pc)) && Extends(s.store.mem, Goto(s, d, pc).store.mem)
  {
    hide StoreInvariant, GoodJournal, GoodRail, DispatchesDurable;
    ExtendsIsReflexive(s.store.mem);
    GrowthKeepsInvariant(s, Goto(s, d, pc));
  }

  /** Marking dispatch makes the signed transaction and the intent visible before any submission. */
  lemma MarkMakesDispatching(s: Store, q: QuoteId, hash: Hash, envelope: string, p: Persist)
    requires Signs(s.mem, q, hash, envelope)
    requires Commit(s, UpdateSettlement(q, Transition(OpRecordDispatchStarted)), p).1.Ok?
    ensures Dispatching(Commit(s, UpdateSettlement(q, Transition(OpRecordDispatchStarted)), p).0.mem, q, hash, envelope)
  {
    OneStep(s.mem.melt[q].settlement, OpRecordDispatchStarted);
  }

  lemma UpdatingMoveKeepsInvariant(s: System, d: nat, answer: Answer)
    requires Invariant(s) && Allowed(s, d, answer) && answer.Persisting?
    ensures Invariant(Moved(s, d, answer)) && Extends(s.store.mem, Moved(s, d, answer).store.mem)
  {
    hide StoreInvariant, GoodJournal, GoodRail, Extends, DispatchesDurable, Commit, Invariant, Step, Signs, Dispatching;
    assert GoodDriver(s.drivers[d], s.store.mem, s.rail) by { DriverIsGood(s, d); }
    match s.drivers[d].pc
    case DriveReserve => UpdateKeepsInvariant(s, d, Transition(OpReserveProofs), answer, DriveReread);
    case DriveRecord(h, e) =>
      CanonicalHashParsesToItself(h);
      UpdateKeepsInvariant(s, d, Transition(OpRecordPrepared(h, e)), answer, DriveLoad);
    case DrivePrepareFailed =>
      UpdateKeepsInvariant(s, d, Transition(OpRecordProvableFailure("payout preparation failed")), answer, DriveLoad);
    case DriveMark(h, e) =>
      var change := Transition(OpRecordDispatchStarted);
      if Commit(s.store, UpdateSettlement(s.drivers[d].quote, change), answer.persist).1.Ok? {
        MarkMakesDispatching(s.store, s.drivers[d].quote, h, e, answer.persist);
      }
      UpdateKeepsInvariant(s, d, change, answer, DriveSubmit(h, e));
    case Applying(change) => UpdateKeepsInvariant(s, d, change, answer, Finished);
  }

  lemma DriverIsGood(s: System, d: nat)
    requires Invariant(s) && d in s.drivers
    ensures GoodDriver(s.drivers[d], s.store.mem, s.rail)
  {
  }

  lemma ObservationIsTruthful(j: Journal, q: QuoteId, rail: Rail, answer: Answer)
    requires ObservationAllowed(rail, answer) && answer.Observes? && !answer.observation.NotFound?
    ensures TruthfulChange(j, q, ObservationChange(answer.observation), rail)
  {
    CanonicalHashParsesToItself(answer.observation.hash);
  }

  lemma SigningKeepsInvariant(s: System, d: nat, hash: Hash, envelope: string)
    requires Invariant(s) && d in s.drivers && s.drivers[d].pc.DrivePrepare?
    requires Allowed(s, d, Signed(hash, envelope))
    ensures Invariant(Moved(s, d, Signed(hash, envelope)))
  {
    hide StoreInvariant, GoodJournal, Extends, DispatchesDurable;
    ExtendsIsReflexive(s.store.mem);
    GrowthKeepsInvariant(s, Moved(s, d, Signed(hash, envelope)));
  }

  lemma SubmitKeepsInvariant(s: System, d: nat)
    requires Invariant(s) && d in s.drivers && s.drivers[d].pc.DriveSubmit?
    ensures Invariant(Moved(s, d, Nothing))
  {
    hide StoreInvariant, GoodJournal, Extends;
    var t := Moved(s, d, Nothing);
    var sent := Dispatch(s.drivers[d].quote, s.drivers[d].pc.hash, s.drivers[d].pc.envelope);
    DriverIsGood(s, d);
    LearningKeepsJournal(s.store.mem, s.rail, t.rail);
    LearningKeepsJournal(s.store.disk, s.rail, t.rail);
    ExtendsIsReflexive(s.store.mem);
    forall h | h in t.rail.submitted ensures exists i :: 0 <= i < |t.dispatches| && t.dispatches[i].hash == h {
      if h == sent.hash {
        assert t.dispatches[|s.dispatches|].hash == h;
      } else {
        var i :| 0 <= i < |s.dispatches| && s.dispatches[i].hash == h;
        assert t.dispatches[i].hash == h;
      }
    }
    forall k | k in t.drivers ensures GoodDriver(t.drivers[k], t.store.mem, t.rail) {
      if k != d { GrowthKeepsDriver(s.drivers[k], s.store.mem, t.store.mem, s.rail, t.rail); }
    }
  }

  lemma ReadingMoveKeepsInvariant(s: System, d: nat, answer: Answer)
    requires Invariant(s) && Allowed(s, d, answer) && !answer.Persisting?
    requires !s.drivers[d].pc.DriveSubmit? && !answer.Signed?
    ensures Invariant(Moved(s, d, answer)) && Extends(s.store.mem, Moved(s, d, answer).store.mem)
  {
    hide StoreInvariant, GoodJournal, GoodRail, Extends, DispatchesDurable, Invariant;
    DriverIsGood(s, d);
    var q := s.drivers[d].quote;
    if answer.Observes? && !answer.observation.NotFound? {
      ObservationIsTruthful(s.store.mem, q, s.rail, answer);
    }
    if answer.Submits? && answer.result.SubmitConfirmed? {
      CanonicalHashParsesToItself(s.drivers[d].pc.hash);
    }
    var pc := Moved(s, d, answer).drivers[d].pc;
    GotoKeepsInvariant(s, d, pc);
  }

  lemma MoveKeepsInvariant(s: System, d: nat, answer: Answer)
    requires Invariant(s) && Allowed(s, d, answer)
    ensures Invariant(Moved(s, d, answer)) && Extends(s.store.mem, Moved(s, d, answer).store.mem)
  {
    hide Invariant, Extends;
    if answer.Persisting? {
      UpdatingMoveKeepsInvariant(s, d, answer);
    } else if answer.Signed? {
      SigningKeepsInvariant(s, d, answer.hash, answer.envelope);
      ExtendsIsReflexive(s.store.mem);
    } else if s.drivers[d].pc.DriveSubmit? {
      SubmitKeepsInvariant(s, d);
      ExtendsIsReflexive(s.store.mem);
    } else {
      ReadingMoveKeepsInvariant(s, d, answer);
    }
  }

  lemma OtherCallKeepsGood(s: Store, u: Update, p: Persist, rail: Rail)
    requires StoreInvariant(s) && GoodJournal(s.mem, rail) && GoodJournal(s.disk, rail)
    requires WellFormed(u) && !u.UpdateSettlement?
    ensures GoodJournal(Commit(s, u, p).0.mem, rail) && GoodJournal(Commit(s, u, p).0.disk, rail)
  {
    hide StoreInvariant, FindByMemo, ValidatePayment, StaleOutcome;
    if Apply(s.mem, u).Ok? {
      var next := Apply(s.mem, u).value.0;
      forall q | q in next.melt ensures GoodSettlement(q, next.melt[q].settlement, rail) {
        if q in s.mem.melt { assert GoodSettlement(q, s.mem.melt[q].settlement, rail); }
      }
    }
  }

  lemma NextKeepsInvariant(s: System, step: Action)
    requires Invariant(s) && Enabled(s, step)
    ensures Invariant(Next(s, step)) && Extends(s.store.mem, Next(s, step).store.mem)
  {
    hide StoreInvariant, GoodJournal, Extends, DispatchesDurable, Commit, GoodDriver, Apply;
    var t := Next(s, step);
    ExtendsIsReflexive(s.store.mem);
    match step
    case Launch(d, q, check) =>
      assert GoodDriver(t.drivers[d], t.store.mem, t.rail) by { LaunchedIsGood(q, check, t.store.mem, t.rail); }
      GrowthKeepsInvariant(s, t);
    case Move(d, answer) => MoveKeepsInvariant(s, d, answer);
    case Cancel(d) => GrowthKeepsInvariant(s, t);
    case CrashAndReopen =>
      CrashKeepsStore(s.store);
      GrowthKeepsDispatches(s.dispatches, s.store.mem, s.store.disk);
    case OtherCall(u, p) =>
      CallKeepsStore(s.store, u, p);
      OtherCallKeepsGood(s.store, u, p, s.rail);
      GrowthKeepsInvariant(s, t);
    case NetworkConfirms(h) => GrowthKeepsInvariant(s, t);
    case NetworkFails(h) => GrowthKeepsInvariant(s, t);
  }

  lemma LaunchedIsGood(q: QuoteId, check: bool, mem: Journal, rail: Rail)
    ensures GoodDriver(Driver(q, if check then CheckStart else DriveStart), mem, rail)
  {
  }

  lemma CrashKeepsStore(s: Store)
    requires StoreInvariant(s)
    ensures StoreInvariant(Store(s.disk, s.disk)) && Extends(s.mem, s.disk)
  {
    AfterKeeps(s, Crash);
  }

  lemma CallKeepsStore(s: Store, u: Update, p: Persist)
    requires StoreInvariant(s) && WellFormed(u)
    ensures StoreInvariant(Commit(s, u, p).0) && Extends(s.mem, Commit(s, u, p).0.mem)
  {
    AfterKeeps(s, Call(u, p));
  }

  lemma {:induction false} RunInvariant(trace: seq<System>, steps: seq<Action>, i: nat)
    requires IsRun(trace, steps) && i < |trace|
    ensures Invariant(trace[i])
  {
    if i > 0 {
      RunInvariant(trace, steps, i - 1);
      NextKeepsInvariant(trace[i - 1], steps[i - 1]);
    }
  }

  lemma {:induction false} RunOnlyGrows(trace: seq<System>, steps: seq<Action>, i: nat, j: nat)
    requires IsRun(trace, steps) && i <= j < |trace|
    ensures Extends(trace[i].store.mem, trace[j].store.mem)
    decreases j
  {
    hide Invariant, Extends;
    if i == j {
      ExtendsIsReflexive(trace[i].store.mem);
    } else {
      RunOnlyGrows(trace, steps, i, j - 1);
      RunInvariant(trace, steps, j - 1);
      NextKeepsInvariant(trace[j - 1], steps[j - 1]);
      ExtendsIsTransitive(trace[i].store.mem, trace[j - 1].store.mem, trace[j].store.mem);
    }
  }

  // ------------------------------------------------------------ main results

  /** Over every interleaving and restart, all submissions of one quote carry one hash and one envelope. */
  lemma OneEnvelopePerQuote(trace: seq<System>, steps: seq<Action>, i: nat, a: nat, b: nat)
    requires IsRun(trace, steps) && i < |trace|
    requires a < |trace[i].dispatches| && b < |trace[i].dispatches|
    ensures trace[i].dispatches[a].quote == trace[i].dispatches[b].quote
            <==> trace[i].dispatches[a].hash == trace[i].dispatches[b].hash
    ensures trace[i].dispatches[a].quote == trace[i].dispatches[b].quote
            ==> trace[i].dispatches[a] == trace[i].dispatches[b]
  {
    RunInvariant(trace, steps, i);
    var s := trace[i];
    assert Dispatching(s.store.mem, s.dispatches[a].quote, s.dispatches[a].hash, s.dispatches[a].envelope);
    assert Dispatching(s.store.mem, s.dispatches[b].quote, s.dispatches[b].hash, s.dispatches[b].envelope);
    assert GoodSettlement(s.dispatches[a].quote, s.store.mem.melt[s.dispatches[a].quote].settlement, s.rail);
    assert GoodSettlement(s.dispatches[b].quote, s.store.mem.melt[s.dispatches[b].quote].settlement, s.rail);
  }

  /** Before a submission the signed transaction and the dispatch intent are in memory and in the file. */
  lemma IntentIsDurableBeforeSubmission(trace: seq<System>, steps: seq<Action>, i: nat)
    requires IsRun(trace, steps) && i < |steps|
    requires |trace[i].dispatches| < |trace[i + 1].dispatches|
    ensures |trace[i + 1].dispatches| == |trace[i].dispatches| + 1
    ensures var sent := trace[i + 1].dispatches[|trace[i].dispatches|];
            && Dispatching(trace[i].store.mem, sent.quote, sent.hash, sent.envelope)
            && Dispatching(trace[i].store.disk, sent.quote, sent.hash, sent.envelope)
  {
    hide GoodJournal, GoodRail, DispatchesDurable, Commit;
    RunInvariant(trace, steps, i);
    assert steps[i].Move?;
    DriverIsGood(trace[i], steps[i].driver);
  }

  /** Whatever the interleaving, the network confirms at most one transaction for a quote. */
  lemma NetworkPaysAtMostOnce(trace: seq<System>, steps: seq<Action>, i: nat, a: Hash, b: Hash)
    requires IsRun(trace, steps) && i < |trace|
    ensures a in trace[i].rail.confirmed && b in trace[i].rail.confirmed ==>
              a in trace[i].rail.issued && b in trace[i].rail.issued
              && (trace[i].rail.issued[a] == trace[i].rail.issued[b] ==> a == b)
  {
    RunInvariant(trace, steps, i);
    var s := trace[i];
    if a in s.rail.confirmed && b in s.rail.confirmed {
      var k :| 0 <= k < |s.dispatches| && s.dispatches[k].hash == a;
      var l :| 0 <= l < |s.dispatches| && s.dispatches[l].hash == b;
      assert Dispatching(s.store.mem, s.dispatches[k].quote, a, s.dispatches[k].envelope);
      assert Dispatching(s.store.mem, s.dispatches[l].quote, b, s.dispatches[l].envelope);
      assert GoodSettlement(s.dispatches[k].quote, s.store.mem.melt[s.dispatches[k].quote].settlement, s.rail);
      assert GoodSettlement(s.dispatches[l].quote, s.store.mem.melt[s.dispatches[l].quote].settlement, s.rail);
    }
  }

  /**
   * A quote once seen Failed stays Failed with the same record, and nothing ever sent for it, nor the
   * transaction prepared for it, is confirmed at any later point of the run.
   */
  lemma FailedIsNeverConfirmed(trace: seq<System>, steps: seq<Action>, i: nat, j: nat, q: QuoteId)
    requires IsRun(trace, steps) && i <= j < |trace|
    ensures q in trace[i].store.mem.melt && trace[i].store.mem.melt[q].settlement.state.Failed? ==>
              && q in trace[j].store.mem.melt
              && trace[j].store.mem.melt[q].settlement == trace[i].store.mem.melt[q].settlement
              && forall h :: h in trace[j].rail.confirmed ==> h in trace[j].rail.issued && trace[j].rail.issued[h] != q
  {
    if q in trace[i].store.mem.melt && trace[i].store.mem.melt[q].settlement.state.Failed? {
      RunOnlyGrows(trace, steps, i, j);
      RunInvariant(trace, steps, j);
      FailedExcludesConfirmation(trace[j], q);
    }
  }

  lemma FailedExcludesConfirmation(t: System, q: QuoteId)
    requires Invariant(t) && q in t.store.mem.melt && t.store.mem.melt[q].settlement.state.Failed?
    ensures forall h :: h in t.rail.confirmed ==> h in t.rail.issued && t.rail.issued[h] != q
  {
    var v := t.store.mem.melt[q].settlement;
    assert GoodSettlement(q, v, t.rail);
    forall h | h in t.rail.confirmed ensures h in t.rail.issued && t.rail.issued[h] != q {
      var k :| 0 <= k < |t.dispatches| && t.dispatches[k].hash == h;
      assert Dispatching(t.store.mem, t.dispatches[k].quote, h, t.dispatches[k].envelope);
      assert GoodSettlement(t.dispatches[k].quote, t.store.mem.melt[t.dispatches[k].quote].settlement, t.rail);
    }
  }

  /** A quote once seen Paid stays Paid; its hash is the prepared one, was dispatched, and is confirmed. */
  lemma PaidIsConfirmedForever(trace: seq<System>, steps: seq<Action>, i: nat, j: nat, q: QuoteId)
    requires IsRun(trace, steps) && i <= j < |trace|
    ensures q in trace[i].store.mem.melt && trace[i].store.mem.melt[q].settlement.state.Paid? ==>
              var v := trace[i].store.mem.melt[q].settlement;
              && DispatchStarted(v) && v.prepared.value.hash == v.state.hash
              && v.state.hash in trace[i].rail.confirmed
              && q in trace[j].store.mem.melt && trace[j].store.mem.melt[q].settlement == v
              && q in trace[j].store.disk.melt && trace[j].store.disk.melt[q].settlement == v
  {
    hide GoodRail, DispatchesDurable, GoodDriver, AtMostOneAhead, IndexesAreInverses, KeepsMint;
    RunInvariant(trace, steps, i);
    if q in trace[i].store.mem.melt && trace[i].store.mem.melt[q].settlement.state.Paid? {
      assert GoodSettlement(q, trace[i].store.mem.melt[q].settlement, trace[i].rail);
      RunOnlyGrows(trace, steps, i, j);
      RunInvariant(trace, steps, j);
      ExtendsIsTransitive(trace[i].store.mem, trace[j].store.mem, trace[j].store.disk);
    }
  }
}
