/**
 * The recovery job repository and the worker in their own imperative form
 * (postgres-cashu-stellar-melt-recovery-job-repository.ts,
 * cashu-stellar-melt-recovery-worker.ts).
 */
module RecoveryRepositories {
  import opened Outcomes
  import opened MeltRecords
  import opened AcquirerDatabase
  import opened RecoveryJobs
  import opened RecoveryWorkers
  import opened RecoveryCommits
  import MeltInvariants
  import MeltStore

  /** mapAttempts: one pass that carries along when the next lease could be taken. */
  method MapAttempts(initialAttemptAt: nat, rows: seq<LeaseRow>) returns (ok: bool)
    ensures ok <==> LeaseRowsReadable(initialAttemptAt, rows)
  {
    var eligibleAt := initialAttemptAt;
    for position := 0 to |rows|
      invariant forall k :: 0 <= k < position ==> LeaseRowReadable(initialAttemptAt, rows, k)
      invariant eligibleAt == EligibleBefore(initialAttemptAt, rows, position)
    {
      var lease := rows[position].lease;
      if !LeaseReadable(lease) || lease.number != position + 1 || lease.claimedAt < eligibleAt {
        assert !LeaseRowReadable(initialAttemptAt, rows, position);
        return false;
      }
      match rows[position].outcome {
        case None =>
          eligibleAt := lease.expiresAt;
        case Some(outcome) =>
          if outcome.recordedAt < lease.claimedAt || lease.expiresAt < outcome.recordedAt
             || (outcome.RetryScheduled? && outcome.nextAttemptAt <= outcome.recordedAt) {
            assert !LeaseRowReadable(initialAttemptAt, rows, position);
            return false;
          }
          if outcome.RetryScheduled? {
            eligibleAt := outcome.nextAttemptAt;
          } else if position != |rows| - 1 {
            assert !LeaseRowReadable(initialAttemptAt, rows, position);
            return false;
          }
      }
      assert LeaseRowReadable(initialAttemptAt, rows, position);
    }
    return true;
  }

  class RecoveryJobRepository {
    const db: Database
    var jobs: map<string, Job>
    var tokens: set<string>

    constructor (database: Database)
      ensures db == database && jobs == map[] && tokens == {}
    {
      db, jobs, tokens := database, map[], {};
    }

    function Contents(): JobTables
      reads this, db
    {
      JobTables(db.Contents(), jobs, tokens)
    }

    /** claimNext, on the candidate its first query returned. */
    method ClaimNext(candidate: Option<string>, claim: ClaimInput) returns (r: Result<Option<Lease>, JobError>)
      modifies this
      ensures match RecoveryJobs.ClaimNext(old(Contents()), candidate, claim)
              case Ok(done) => r == Ok(done.lease) && Contents() == done.store
              case Err(e) => r == Err(e) && Contents() == old(Contents())
    {
      if claim.expiresAt <= claim.claimedAt || claim.expiresAt - claim.claimedAt > MAX_LEASE {
        return Err(InvalidClaim);
      }
      if candidate.None? {
        return Ok(None);
      }
      var p := candidate.value;
      if !Eligible(Contents(), p, claim.claimedAt) {
        return Ok(None);
      }
      var job := jobs[p];
      var number := NextNumber(job);
      if number > MAX_LEASE_NUMBER {
        return Err(InvalidJob);
      }
      if claim.token in tokens {
        return Err(LeaseConflict);
      }
      var lease := Lease(claim.token, number, claim.workerId, claim.claimedAt, claim.expiresAt);
      tokens := tokens + {claim.token};
      jobs := jobs[p := job.(attempts := job.attempts + [LeaseRow(lease, None)])];
      return Ok(Some(lease));
    }

    /** mapJob. */
    method ReadJob(p: string) returns (view: Option<JobView>)
      requires p in jobs
      ensures view == MapJob(Contents(), p)
    {
      hide LeaseRowsReadable;
      var job := jobs[p];
      if !HasMeltEffect(db.Contents(), p) {
        return None;
      }
      var row := db.payments[p];
      if row.effect.value.effectId != job.effectId || job.initialAttemptAt != InitialAttemptAt(row.effect.value.startedAt)
         || row.events == [] {
        return None;
      }
      var mapped := MapAttempts(job.initialAttemptAt, job.attempts);
      if !mapped {
        return None;
      }
      var state := Last(row.events).state;
      if state.Consumed? || state.Released? {
        if job.attempts != [] && Last(job.attempts).outcome.Some? {
          var latest := Last(job.attempts).outcome.value;
          if (latest.AcceptedOutcome? && !state.Consumed?) || (latest.ReleasedOutcome? && !state.Released?) {
            return None;
          }
        }
        return Some(Completed(state.Consumed?));
      }
      if !Active(row) {
        return None;
      }
      if job.attempts == [] {
        return Some(Scheduled(job.initialAttemptAt));
      }
      match Last(job.attempts).outcome {
        case None => return Some(Leased(Last(job.attempts).lease));
        case Some(outcome) =>
          match outcome {
            case RetryScheduled(_, _, next) => return Some(Scheduled(next));
            case AttentionRequired(_, _) => return Some(Halted(outcome));
            case _ => return None;
          }
      }
    }

    /** recordOutcome, with the outcome trigger and the final read-back. */
    method RecordOutcome(p: string, token: string, outcome: LeaseOutcome) returns (r: Result<bool, JobError>)
      modifies this
      ensures match RecoveryJobs.RecordOutcome(old(Contents()), p, token, outcome)
              case Ok(done) => r == Ok(done.replayed) && Contents() == done.store
              case Err(e) => r == Err(e) && Contents() == old(Contents())
    {
      hide MapJob;
      if outcome.RetryScheduled? && outcome.nextAttemptAt <= outcome.recordedAt {
        return Err(InvalidOutcome);
      }
      if p !in jobs || jobs[p].attempts == [] || Last(jobs[p].attempts).lease.token != token {
        return Err(LeaseLost);
      }
      var begun := jobs;
      var job := jobs[p];
      var latest := Last(job.attempts);
      if latest.outcome.Some? && latest.outcome.value != outcome {
        return Err(LeaseConflict);
      }
      if latest.outcome.None? {
        if p !in db.payments || outcome.recordedAt < latest.lease.claimedAt || latest.lease.expiresAt < outcome.recordedAt
           || !OutcomeFits(db.payments[p], outcome) {
          return Err(LeaseLost);
        }
        jobs := jobs[p := job.(attempts := job.attempts[|job.attempts| - 1 := latest.(outcome := Some(outcome))])];
        assert Contents() == WithOutcome(old(Contents()), p, outcome);
      }
      var view := ReadJob(p);
      if view.None? {
        jobs := begun;
        return Err(InvalidJob);
      }
      return Ok(latest.outcome.Some?);
    }
  }

  datatype WorkerError = LeaseGone | StorageFailed

  datatype WorkerResult = Idle | Terminal(accepted: bool) | Retrying(nextAttemptAt: nat) | Stopped(why: HaltReason)

  /** What a worker returns for the outcome it recorded, or for the lease it lost. */
  function ResultOf(s: JobTables, p: string, token: string, o: LeaseOutcome): Result<WorkerResult, WorkerError> {
    match Reported(s, p, token, o)
    case Some(answer) => Ok(Terminal(answer.accepted))
    case None =>
      match RecoveryJobs.RecordOutcome(s, p, token, o)
      case Err(e) => Err(if e.LeaseLost? then LeaseGone else StorageFailed)
      case Ok(_) =>
        match o
        case RetryScheduled(_, _, next) => Ok(Retrying(next))
        case AttentionRequired(why, _) => Ok(Stopped(why))
        case _ => Ok(Idle)
  }

  // ------------------------------------------- what a worker makes of its lease

  /** Nothing is stored: the payment was settled meanwhile, and that is reported, or the lease is lost. */
  predicate Overtaken(s: JobTables, p: string, u: JobTables, r: Result<WorkerResult, WorkerError>)
    requires p in s.tables.payments
  {
    && u == s
    && r == match Current(s.tables.payments[p])
            case Consumed => Ok(Terminal(true))
            case Released => Ok(Terminal(false))
            case _ => Err(LeaseGone)
  }

  /** The melt is still in doubt and this outcome is stored, or the worker was overtaken. */
  predicate Stores(s: JobTables, p: string, o: LeaseOutcome, result: WorkerResult, u: JobTables, r: Result<WorkerResult, WorkerError>)
    requires p in s.jobs && s.jobs[p].attempts != [] && p in s.tables.payments
  {
    if Active(s.tables.payments[p]) then Answered(s, p, o, u) && r == Ok(result) else Overtaken(s, p, u, r)
  }

  predicate Halts(s: JobTables, p: string, why: HaltReason, at: nat, u: JobTables, r: Result<WorkerResult, WorkerError>)
    requires p in s.jobs && s.jobs[p].attempts != [] && p in s.tables.payments
  {
    Stores(s, p, AttentionRequired(why, at), Stopped(why), u, r)
  }

  /** A retry after the base delay, doubled for every attempt made and cut at the maximum; the last attempt gives up. */
  predicate Retries(policy: Policy, s: JobTables, p: string, number: nat, reason: RetryReason, at: nat, u: JobTables,
                    r: Result<WorkerResult, WorkerError>)
    requires p in s.jobs && s.jobs[p].attempts != [] && p in s.tables.payments && number > 0
  {
    if number < policy.maxAttempts then
      var doubled := policy.retryBase * Pow2(number - 1);
      var next := at + if doubled <= policy.retryMax then doubled else policy.retryMax;
      Stores(s, p, RetryScheduled(reason, at, next), Retrying(next), u, r)
    else Halts(s, p, RetryExhausted, at, u, r)
  }

  /** A terminal report is stored when the payment is in that state. */
  predicate Settles(s: JobTables, p: string, accepted: bool, at: nat, u: JobTables, r: Result<WorkerResult, WorkerError>)
    requires p in s.jobs && s.jobs[p].attempts != [] && p in s.tables.payments
  {
    if accepted && Current(s.tables.payments[p]).Consumed? then Answered(s, p, AcceptedOutcome(at), u) && r == Ok(Terminal(true))
    else if !accepted && Current(s.tables.payments[p]).Released? then Answered(s, p, ReleasedOutcome(at), u) && r == Ok(Terminal(false))
    else Overtaken(s, p, u, r)
  }

  /** This lease is the newest of its job and still unanswered. */
  predicate HoldsLease(s: JobTables, p: string, lease: Lease) {
    && p in s.jobs && p in s.tables.payments && s.jobs[p].attempts != []
    && Last(s.jobs[p].attempts) == LeaseRow(lease, None) && lease.number > 0
  }

  /**
   * What a worker does with its lease, by the report of its recovery. Doubt is retried with its own reason; evidence,
   * answers or a configuration that no retry can mend are halted with theirs; a settled payment is recorded as such.
   */
  predicate Concludes(policy: Policy, s: JobTables, p: string, lease: Lease, recovered: bool, report: Report, at: nat,
                      u: JobTables, r: Result<WorkerResult, WorkerError>)
    requires HoldsLease(s, p, lease)
  {
    if at < lease.claimedAt || lease.expiresAt < at then u == s && r == Err(LeaseGone)
    else if !recovered then Halts(s, p, RetryExhausted, at, u, r)
    else match report
      case Crashed => Retries(policy, s, p, lease.number, StorageUnavailable, at, u, r)
      case Failed(RequestAborted) => Retries(policy, s, p, lease.number, WorkerAborted, at, u, r)
      case Failed(StoreUnavailable) => Retries(policy, s, p, lease.number, StorageUnavailable, at, u, r)
      case Failed(ClockUnavailable) => Halts(s, p, ConfigurationInvalid, at, u, r)
      case Failed(BadConfiguration) => Halts(s, p, ConfigurationInvalid, at, u, r)
      case Failed(OperatorNotConfigured) => Halts(s, p, ConfigurationInvalid, at, u, r)
      case Failed(_) => Halts(s, p, EvidenceInvalid, at, u, r)
      case Finished(q, accepted) => if q == p then Settles(s, p, accepted, at, u, r) else Halts(s, p, EvidenceInvalid, at, u, r)
      case StillPending(q) =>
        if q == p then Retries(policy, s, p, lease.number, NonterminalEvidence, at, u, r) else Halts(s, p, EvidenceInvalid, at, u, r)
      case NeedsOperator(q, why) =>
        if q != p then Halts(s, p, EvidenceInvalid, at, u, r)
        else if why == OperatorResponseInvalid then Halts(s, p, ResponseInvalid, at, u, r)
        else Retries(policy, s, p, lease.number, StateUnknown, at, u, r)
  }

  /** The tables after a coordinator call: they have grown, and no melt was dispatched. */
  ghost predicate RecoversOnly(t: MeltStore.Tables, u: MeltStore.Tables) {
    MeltInvariants.Sound(u) && MeltInvariants.TablesGrow(t, u) && forall q :: HasMeltEffect(u, q) ==> HasMeltEffect(t, q)
  }

  lemma RetryIsLater(policy: Policy, number: nat)
    requires ValidPolicy(policy) && number > 0
    ensures RetryDelay(policy, number) >= 1
  {
    DelaysAreBoundedAndGrow(policy, number, number);
  }

  /** Recording an outcome in time: it is stored when the payment fits it, and the worker is overtaken otherwise. */
  lemma RecordingConcludes(s: JobTables, p: string, lease: Lease, o: LeaseOutcome)
    requires JobsSound(s) && HoldsLease(s, p, lease) && lease.claimedAt <= o.recordedAt <= lease.expiresAt
    requires o.RetryScheduled? ==> o.recordedAt < o.nextAttemptAt
    ensures var u, r := Perform(s, CallRecord(p, lease.token, o)), ResultOf(s, p, lease.token, o);
            if Fits(s.tables.payments[p], o) then
              && Answered(s, p, o, u)
              && r == match o
                      case AcceptedOutcome(_) => Ok(Terminal(true))
                      case ReleasedOutcome(_) => Ok(Terminal(false))
                      case RetryScheduled(_, _, next) => Ok(Retrying(next))
                      case AttentionRequired(why, _) => Ok(Stopped(why))
            else Overtaken(s, p, u, r)
  {
    hide JobsSound, Answered, MapJob;
    RecordsExactlyWhenLeased(s, p, lease.token, o);
    if !Fits(s.tables.payments[p], o) {
      RefusedIsLost(s, p, lease, o);
      ViewOfUnanswered(s, p, lease);
    }
  }

  lemma RefusedIsLost(s: JobTables, p: string, lease: Lease, o: LeaseOutcome)
    requires HoldsLease(s, p, lease) && !Fits(s.tables.payments[p], o)
    requires o.RetryScheduled? ==> o.recordedAt < o.nextAttemptAt
    ensures RecoveryJobs.RecordOutcome(s, p, lease.token, o) == Err(LeaseLost)
  {
    hide MapJob;
  }

  lemma ViewOfUnanswered(s: JobTables, p: string, lease: Lease)
    requires JobsSound(s) && HoldsLease(s, p, lease)
    ensures MapJob(s, p) == match Current(s.tables.payments[p])
                            case Consumed => Some(Completed(true))
                            case Released => Some(Completed(false))
                            case _ => Some(Leased(lease))
  {
    hide JobsSound, MapJob;
    ViewIsWhatHappened(s, p);
  }

  class RecoveryWorker {
    const policy: Policy
    const repository: RecoveryJobRepository

    constructor (options: Policy, jobRepository: RecoveryJobRepository)
      requires ValidPolicy(options)
      ensures policy == options && repository == jobRepository
    {
      policy, repository := options, jobRepository;
    }

    /** persistOutcome: a lost lease still yields the terminal state another worker or caller reached. */
    method PersistOutcome(p: string, lease: Lease, outcome: LeaseOutcome) returns (r: Result<WorkerResult, WorkerError>)
      modifies repository
      ensures repository.Contents() == Perform(old(repository.Contents()), CallRecord(p, lease.token, outcome))
      ensures r.Ok? && r.value.Terminal? <==> Reported(old(repository.Contents()), p, lease.token, outcome).Some?
      ensures r.Ok? && r.value.Terminal? ==>
                Reported(old(repository.Contents()), p, lease.token, outcome) == Some(Answer(p, r.value.accepted))
      ensures r.Ok? && r.value.Retrying? ==> outcome.RetryScheduled? && r.value.nextAttemptAt == outcome.nextAttemptAt
      ensures r.Ok? && r.value.Stopped? ==> outcome.AttentionRequired? && r.value.why == outcome.haltReason
      ensures r.Ok? ==> !r.value.Idle?
      ensures r == ResultOf(old(repository.Contents()), p, lease.token, outcome)
      ensures r.Err? <==> RecoveryJobs.RecordOutcome(old(repository.Contents()), p, lease.token, outcome).Err?
                          && Reported(old(repository.Contents()), p, lease.token, outcome).None?
    {
      hide MapJob, RecoveryJobs.RecordOutcome;
      var recorded := repository.RecordOutcome(p, lease.token, outcome);
      if recorded.Err? {
        if recorded.error.LeaseLost? && p in repository.jobs {
          var view := repository.ReadJob(p);
          if view.Some? && view.value.Completed? {
            return Ok(Terminal(view.value.accepted));
          }
        }
        return Err(if recorded.error.LeaseLost? then LeaseGone else StorageFailed);
      }
      match outcome {
        case AcceptedOutcome(_) => return Ok(Terminal(true));
        case ReleasedOutcome(_) => return Ok(Terminal(false));
        case RetryScheduled(_, _, next) => return Ok(Retrying(next));
        case AttentionRequired(why, _) => return Ok(Stopped(why));
      }
    }

    /** The rest of runOnce once its recovery is over, or was not worth starting: the clock, the outcome, the record. */
    method ConcludeLease(p: string, lease: Lease, recovered: bool, report: Report, recordedAt: nat)
      returns (r: Result<WorkerResult, WorkerError>)
      requires ValidPolicy(policy) && lease.number > 0 && (recovered <==> lease.number <= policy.maxAttempts)
      modifies repository
      ensures var s := old(repository.Contents());
              var o := OutcomeOf(Worker(policy, p, lease, if recovered then Recovering else Holding), report, recordedAt);
              if recordedAt < lease.claimedAt || lease.expiresAt < recordedAt then repository.Contents() == s && r == Err(LeaseGone)
              else
                && repository.Contents() == Perform(s, CallRecord(p, lease.token, o))
                && r == ResultOf(s, p, lease.token, o)
      ensures var s := old(repository.Contents());
              JobsSound(s) && HoldsLease(s, p, lease) ==>
                Concludes(policy, s, p, lease, recovered, report, recordedAt, repository.Contents(), r)
    {
      hide Perform, RecoveryJobs.RecordOutcome, SelectOutcome, ResultOf, Reported, JobsSound, Concludes;
      ghost var s := repository.Contents();
      if recordedAt < lease.claimedAt || lease.expiresAt < recordedAt {
        r := Err(LeaseGone);
        if HoldsLease(s, p, lease) { LateConcludes(policy, s, p, lease, recovered, report, recordedAt); }
        return;
      }
      var outcome := if !recovered then AttentionRequired(RetryExhausted, recordedAt)
                     else SelectOutcome(policy, p, lease, recordedAt, report);
      r := PersistOutcome(p, lease, outcome);
      if JobsSound(s) && HoldsLease(s, p, lease) {
        OutcomeConcludes(policy, s, p, lease, recovered, report, recordedAt);
      }
    }

    static lemma LateConcludes(policy: Policy, s: JobTables, p: string, lease: Lease, recovered: bool, report: Report, at: nat)
      requires HoldsLease(s, p, lease) && (at < lease.claimedAt || lease.expiresAt < at)
      ensures Concludes(policy, s, p, lease, recovered, report, at, s, Err(LeaseGone))
    {
    }

    static lemma OutcomeConcludes(policy: Policy, s: JobTables, p: string, lease: Lease, recovered: bool, report: Report, at: nat)
      requires ValidPolicy(policy) && JobsSound(s) && HoldsLease(s, p, lease) && lease.claimedAt <= at <= lease.expiresAt
      ensures var o := if recovered then SelectOutcome(policy, p, lease, at, report) else AttentionRequired(RetryExhausted, at);
              Concludes(policy, s, p, lease, recovered, report, at, Perform(s, CallRecord(p, lease.token, o)),
                        ResultOf(s, p, lease.token, o))
    {
      hide JobsSound, Perform, ResultOf, Answered, Pow2;
      var o := if recovered then SelectOutcome(policy, p, lease, at, report) else AttentionRequired(RetryExhausted, at);
      RetryIsLater(policy, lease.number);
      RecordingConcludes(s, p, lease, o);
    }

    /**
     * runOnce from its claim on. `report` is what the coordinator call comes to when it is made, `settled` the payment
     * tables it leaves, and `recordedAt` the clock reading after it.
     */
    method RunOnce(candidate: Option<string>, token: string, workerId: string, claimedAt: nat, settled: MeltStore.Tables,
                   report: Report, recordedAt: nat)
      returns (r: Result<WorkerResult, WorkerError>, recovered: bool)
      requires ValidPolicy(policy)
      modifies repository, repository.db
      ensures var before := old(repository.Contents());
              match RecoveryJobs.ClaimNext(before, candidate, LeaseRequest(policy, token, workerId, claimedAt))
              case Err(e) =>
                r == Err(if e.LeaseLost? then LeaseGone else StorageFailed) && !recovered && repository.Contents() == before
              case Ok(claimed) =>
                if claimed.lease.None? then r == Ok(Idle) && !recovered && repository.Contents() == before
                else
                  var lease := claimed.lease.value;
                  && candidate.Some? && (recovered <==> lease.number <= policy.maxAttempts)
                  && var s := claimed.store.(tables := if recovered then settled else before.tables);
                     JobsSound(before) && RecoversOnly(before.tables, settled) ==>
                       && JobsSound(s) && HoldsLease(s, candidate.value, lease)
                       && Concludes(policy, s, candidate.value, lease, recovered, report, recordedAt, repository.Contents(), r)
    {
      hide Perform, RecoveryJobs.ClaimNext, RecoveryJobs.RecordOutcome, SelectOutcome, ResultOf, Reported, JobsSound, Concludes,
           RecoversOnly, HoldsLease, OutcomeOf;
      recovered := false;
      var request := LeaseRequest(policy, token, workerId, claimedAt);
      ghost var before := repository.Contents();
      var claimed := repository.ClaimNext(candidate, request);
      if claimed.Err? {
        return Err(if claimed.error.LeaseLost? then LeaseGone else StorageFailed), false;
      }
      if claimed.value.None? {
        NoClaimShape(before, candidate, request);
        return Ok(Idle), false;
      }
      var lease := claimed.value.value;
      LeaseOfClaim(before, candidate, request);
      if lease.number <= policy.maxAttempts {
        recovered := true;
        repository.db.Restore(settled);
      }
      if JobsSound(before) && RecoversOnly(before.tables, settled) {
        LeaseStands(before, candidate, request, settled, recovered);
      }
      r := ConcludeLease(candidate.value, lease, recovered, report, recordedAt);
    }

    /** After the coordinator call the worker still holds its lease on sound tables. */
    static lemma LeaseStands(before: JobTables, candidate: Option<string>, c: ClaimInput, settled: MeltStore.Tables, recovered: bool)
      requires JobsSound(before) && RecoversOnly(before.tables, settled)
      requires RecoveryJobs.ClaimNext(before, candidate, c).Ok? && RecoveryJobs.ClaimNext(before, candidate, c).value.lease.Some?
      ensures var claimed := RecoveryJobs.ClaimNext(before, candidate, c).value;
              var s := claimed.store.(tables := if recovered then settled else before.tables);
              candidate.Some? && JobsSound(s) && HoldsLease(s, candidate.value, claimed.lease.value)
    {
      hide JobsSound, RecoversOnly, JobsGrow;
      var claimed := RecoveryJobs.ClaimNext(before, candidate, c).value;
      var p := candidate.value;
      ClaimKeeps(before, candidate, c);
      LeaseOfClaim(before, candidate, c);
      if recovered {
        SettledKeeps(claimed.store, settled);
        JobOf(claimed.store.(tables := settled), p);
      } else {
        assert claimed.store.(tables := before.tables) == claimed.store;
        JobOf(claimed.store, p);
      }
    }

    static lemma SettledKeeps(s: JobTables, settled: MeltStore.Tables)
      requires JobsSound(s) && RecoversOnly(s.tables, settled)
      ensures JobsSound(s.(tables := settled))
    {
      hide JobsSound, MeltInvariants.Sound, MeltInvariants.TablesGrow, JobsGrow;
      ScheduleKeeps(s, settled);
      assert Schedule(s.jobs, s.tables, settled) == s.jobs;
    }

    static lemma LeaseOfClaim(s: JobTables, candidate: Option<string>, c: ClaimInput)
      requires RecoveryJobs.ClaimNext(s, candidate, c).Ok?
      requires RecoveryJobs.ClaimNext(s, candidate, c).value.lease.Some?
      ensures var lease := RecoveryJobs.ClaimNext(s, candidate, c).value.lease.value;
              candidate.Some? && lease.number > 0 && lease.claimedAt == c.claimedAt && lease.expiresAt == c.expiresAt
              && lease.token == c.token
    {
    }
  }
}
