/**
 * The recovery job queue (postgres-cashu-stellar-melt-recovery-job-repository.ts
 * with the triggers of postgres-schema.ts): every melt effect schedules a job,
 * workers take fenced leases on it, and the newest lease records one outcome.
 */
module RecoveryJobs {
  import opened Outcomes
  import opened MeltRecords
  import opened MeltStore
  import opened MeltRows
  import opened MeltInvariants
  import opened MeltCalls
  import opened MeltTheorems
  import Ledger

  const INITIAL_DELAY: nat := 60
  const MAX_LEASE: nat := 300
  const MAX_LEASE_NUMBER: nat := 1024
  const MAX_TIMESTAMP: nat := Ledger.MAX_SAFE_INTEGER

  // -------------------------------------------------------------------- rows

  datatype RetryReason = NonterminalEvidence | StateUnknown | StorageUnavailable | WorkerAborted

  datatype HaltReason = EvidenceInvalid | ResponseInvalid | ConfigurationInvalid | RetryExhausted

  datatype LeaseOutcome =
    | AcceptedOutcome(recordedAt: nat)
    | ReleasedOutcome(recordedAt: nat)
    | RetryScheduled(retryReason: RetryReason, recordedAt: nat, nextAttemptAt: nat)
    | AttentionRequired(haltReason: HaltReason, recordedAt: nat)

  datatype Lease = Lease(token: string, number: nat, workerId: string, claimedAt: nat, expiresAt: nat)

  datatype LeaseRow = LeaseRow(lease: Lease, outcome: Option<LeaseOutcome>)

  datatype Job = Job(effectId: string, initialAttemptAt: nat, attempts: seq<LeaseRow>)

  /** The payment tables with the jobs and the primary key of the leases. */
  datatype JobTables = JobTables(tables: Tables, jobs: map<string, Job>, tokens: set<string>)

  const NoJobs := JobTables(NoTables, map[], {})

  datatype JobError = InvalidClaim | InvalidOutcome | InvalidJob | LeaseLost | LeaseConflict

  // -------------------------------------------------------------- scheduling

  function Min(a: int, b: int): int { if a <= b then a else b }

  function InitialAttemptAt(startedAt: nat): nat { Min(MAX_TIMESTAMP, startedAt + INITIAL_DELAY) }

  predicate HasMeltEffect(t: Tables, p: string) {
    p in t.payments && t.payments[p].effect.Some? && t.payments[p].effect.value.kind.Melt?
  }

  function NewJob(effect: Effect): Job {
    Job(effect.effectId, InitialAttemptAt(effect.startedAt), [])
  }

  /** The insert trigger of the effects table: every new melt effect schedules a job. */
  function Schedule(jobs: map<string, Job>, before: Tables, after: Tables): map<string, Job> {
    jobs + (map p | p in after.payments && HasMeltEffect(after, p) && !HasMeltEffect(before, p) ::
              NewJob(after.payments[p].effect.value))
  }

  // ---------------------------------------------------------------- claiming

  /** When the next lease may be taken; None once an outcome is final. */
  function EligibleAt(job: Job): Option<nat> {
    if job.attempts == [] then Some(job.initialAttemptAt)
    else match Last(job.attempts).outcome
      case None => Some(Last(job.attempts).lease.expiresAt)
      case Some(RetryScheduled(_, _, next)) => Some(next)
      case Some(_) => None
  }

  predicate Eligible(s: JobTables, p: string, at: nat) {
    && p in s.jobs && p in s.tables.payments && Active(s.tables.payments[p])
    && EligibleAt(s.jobs[p]).Some? && EligibleAt(s.jobs[p]).value <= at
  }

  datatype ClaimInput = ClaimInput(token: string, workerId: string, claimedAt: nat, expiresAt: nat)

  datatype Claimed = Claimed(store: JobTables, lease: Option<Lease>)

  function NextNumber(job: Job): nat {
    if job.attempts == [] then 1 else Last(job.attempts).lease.number + 1
  }

  /**
   * claimNext. `candidate` is whatever the unlocked candidate query returned; under the job's row lock
   * eligibility is decided again.
   */
  function ClaimNext(s: JobTables, candidate: Option<string>, c: ClaimInput): Result<Claimed, JobError> {
    if c.expiresAt <= c.claimedAt || c.expiresAt - c.claimedAt > MAX_LEASE then Err(InvalidClaim)
    else if candidate.None? || !Eligible(s, candidate.value, c.claimedAt) then Ok(Claimed(s, None))
    else
      var p := candidate.value;
      var job := s.jobs[p];
      var lease := Lease(c.token, NextNumber(job), c.workerId, c.claimedAt, c.expiresAt);
      if lease.number > MAX_LEASE_NUMBER then Err(InvalidJob)
      else if c.token in s.tokens then Err(LeaseConflict)
      else
        Ok(Claimed(s.(jobs := s.jobs[p := job.(attempts := job.attempts + [LeaseRow(lease, None)])], tokens := s.tokens + {c.token}),
                   Some(lease)))
  }

  // ----------------------------------------------------------- reading it back

  predicate LeaseReadable(lease: Lease) {
    1 <= lease.number <= MAX_LEASE_NUMBER && lease.claimedAt < lease.expiresAt <= lease.claimedAt + MAX_LEASE
  }

  /** When the lease at `k` could first be claimed, by what precedes it. */
  function EligibleBefore(initialAttemptAt: nat, attempts: seq<LeaseRow>, k: nat): nat
    requires k <= |attempts|
  {
    if k == 0 then initialAttemptAt
    else match attempts[k - 1].outcome
      case None => attempts[k - 1].lease.expiresAt
      case Some(RetryScheduled(_, _, next)) => next
      case Some(_) => EligibleBefore(initialAttemptAt, attempts, k - 1)
  }

  /** The step of mapAttempts at position `k`. */
  predicate LeaseRowReadable(initialAttemptAt: nat, attempts: seq<LeaseRow>, k: nat)
    requires k < |attempts|
  {
    var row := attempts[k];
    && LeaseReadable(row.lease)
    && row.lease.number == k + 1
    && EligibleBefore(initialAttemptAt, attempts, k) <= row.lease.claimedAt
    && (row.outcome.Some? ==>
          && row.lease.claimedAt <= row.outcome.value.recordedAt <= row.lease.expiresAt
          && if row.outcome.value.RetryScheduled? then row.outcome.value.recordedAt < row.outcome.value.nextAttemptAt
             else k == |attempts| - 1)
  }

  predicate LeaseRowsReadable(initialAttemptAt: nat, attempts: seq<LeaseRow>) {
    forall k :: 0 <= k < |attempts| ==> LeaseRowReadable(initialAttemptAt, attempts, k)
  }

  datatype JobView =
    | Scheduled(nextAttemptAt: nat)
    | Leased(lease: Lease)
    | Halted(outcome: LeaseOutcome)
    | Completed(accepted: bool)

  /** mapJob; None when the stored history is refused. */
  function MapJob(s: JobTables, p: string): Option<JobView>
    requires p in s.jobs
  {
    var job := s.jobs[p];
    if !HasMeltEffect(s.tables, p) || s.tables.payments[p].effect.value.effectId != job.effectId
       || job.initialAttemptAt != InitialAttemptAt(s.tables.payments[p].effect.value.startedAt)
       || s.tables.payments[p].events == [] || !LeaseRowsReadable(job.initialAttemptAt, job.attempts)
    then None
    else
      var row := s.tables.payments[p];
      var latest := if job.attempts == [] then None else Last(job.attempts).outcome;
      if Terminal(row) then
        if (latest.Some? && latest.value.AcceptedOutcome? && !Current(row).Consumed?)
           || (latest.Some? && latest.value.ReleasedOutcome? && !Current(row).Released?)
        then None
        else Some(Completed(Current(row).Consumed?))
      else if !Active(row) then None
      else if job.attempts == [] then Some(Scheduled(job.initialAttemptAt))
      else match latest
        case None => Some(Leased(Last(job.attempts).lease))
        case Some(RetryScheduled(_, _, next)) => Some(Scheduled(next))
        case Some(AttentionRequired(_, _)) => Some(Halted(latest.value))
        case Some(_) => None
  }

  // --------------------------------------------------------------- recording

  predicate OutcomeFits(row: PaymentRow, o: LeaseOutcome) {
    match o
    case AcceptedOutcome(_) => Current(row).Consumed?
    case ReleasedOutcome(_) => Current(row).Released?
    case _ => Active(row)
  }

  datatype Recorded = Recorded(store: JobTables, replayed: bool)

  function WithOutcome(s: JobTables, p: string, o: LeaseOutcome): JobTables
    requires p in s.jobs && s.jobs[p].attempts != []
  {
    var job := s.jobs[p];
    var last := |job.attempts| - 1;
    s.(jobs := s.jobs[p := job.(attempts := job.attempts[last := job.attempts[last].(outcome := Some(o))])])
  }

  function CheckedJob(s: JobTables, p: string, replayed: bool): Result<Recorded, JobError>
    requires p in s.jobs
  {
    if MapJob(s, p).Some? then Ok(Recorded(s, replayed)) else Err(InvalidJob)
  }

  /** recordOutcome, with the insert trigger of the outcomes table. */
  function RecordOutcome(s: JobTables, p: string, token: string, o: LeaseOutcome): Result<Recorded, JobError> {
    if o.RetryScheduled? && o.nextAttemptAt <= o.recordedAt then Err(InvalidOutcome)
    else if p !in s.jobs || s.jobs[p].attempts == [] || Last(s.jobs[p].attempts).lease.token != token then Err(LeaseLost)
    else
      var latest := Last(s.jobs[p].attempts);
      if latest.outcome.Some? then
        if latest.outcome.value != o then Err(LeaseConflict) else CheckedJob(s, p, true)
      else if p !in s.tables.payments || o.recordedAt < latest.lease.claimedAt || latest.lease.expiresAt < o.recordedAt
              || !OutcomeFits(s.tables.payments[p], o) then Err(LeaseLost)
      else CheckedJob(WithOutcome(s, p, o), p, false)
  }

  // --------------------------------------------------------------- all calls

  datatype JobCall =
    | PaymentCall(call: Call)
    | CallClaim(candidate: Option<string>, claim: ClaimInput)
    | CallRecord(p: string, token: string, outcome: LeaseOutcome)

  ghost function Perform(s: JobTables, c: JobCall): JobTables {
    match c
    case PaymentCall(call) => s.(tables := After(s.tables, call), jobs := Schedule(s.jobs, s.tables, After(s.tables, call)))
    case CallClaim(candidate, claim) =>
      (match ClaimNext(s, candidate, claim) case Ok(done) => done.store case Err(_) => s)
    case CallRecord(p, token, o) =>
      (match RecordOutcome(s, p, token, o) case Ok(done) => done.store case Err(_) => s)
  }

  ghost predicate IsRun(trace: seq<JobTables>, calls: seq<JobCall>) {
    && |trace| == |calls| + 1
    && trace[0] == NoJobs
    && forall i :: 0 <= i < |calls| ==> trace[i + 1] == Perform(trace[i], calls[i])
  }

  // -------------------------------------------------------------- invariants

  predicate DistinctTokens(attempts: seq<LeaseRow>) {
    forall i, k :: 0 <= i < k < |attempts| ==> attempts[i].lease.token != attempts[k].lease.token
  }

  /** The job belongs to its payment's effect, its history is readable, and a final outcome is what happened. */
  predicate JobSound(row: PaymentRow, job: Job, tokens: set<string>) {
    && row.effect.Some? && row.effect.value.kind.Melt? && row.effect.value.effectId == job.effectId
    && job.initialAttemptAt == InitialAttemptAt(row.effect.value.startedAt)
    && LeaseRowsReadable(job.initialAttemptAt, job.attempts)
    && DistinctTokens(job.attempts)
    && (forall k :: 0 <= k < |job.attempts| ==> job.attempts[k].lease.token in tokens)
    && (job.attempts != [] && Last(job.attempts).outcome.Some? ==>
          var o := Last(job.attempts).outcome.value;
          && (o.AcceptedOutcome? ==> Current(row).Consumed?)
          && (o.ReleasedOutcome? ==> Current(row).Released?))
  }

  ghost predicate JobsSound(s: JobTables) {
    && Sound(s.tables)
    && (forall p :: p in s.jobs <==> HasMeltEffect(s.tables, p))
    && (forall p :: p in s.jobs ==> JobSound(s.tables.payments[p], s.jobs[p], s.tokens))
  }

  /** Histories only grow: leases are appended, and an outcome once there never changes. */
  predicate JobGrows(a: Job, b: Job) {
    && b.effectId == a.effectId && b.initialAttemptAt == a.initialAttemptAt
    && |a.attempts| <= |b.attempts|
    && (forall k :: 0 <= k < |a.attempts| ==>
          && b.attempts[k].lease == a.attempts[k].lease
          && (a.attempts[k].outcome.Some? || k < |a.attempts| - 1 ==> b.attempts[k].outcome == a.attempts[k].outcome))
  }

  ghost predicate JobsGrow(a: JobTables, b: JobTables) {
    && TablesGrow(a.tables, b.tables)
    && (forall p :: p in a.jobs ==> p in b.jobs && JobGrows(a.jobs[p], b.jobs[p]))
  }

  // ------------------------------------------------------------------ proofs

  lemma JobGrowsIsTransitive(a: Job, b: Job, c: Job)
    requires JobGrows(a, b) && JobGrows(b, c)
    ensures JobGrows(a, c)
  {
    forall k | 0 <= k < |a.attempts| && (a.attempts[k].outcome.Some? || k < |a.attempts| - 1)
      ensures c.attempts[k].outcome == a.attempts[k].outcome
    {
      assert b.attempts[k].outcome == a.attempts[k].outcome;
    }
  }

  lemma JobStaysSound(a: PaymentRow, b: PaymentRow, job: Job, tokens: set<string>, more: set<string>)
    requires Grows(a, b) && JobSound(a, job, tokens) && tokens <= more
    ensures JobSound(b, job, more)
  {
    EffectStays(a, b);
    if Terminal(a) { TerminalNeverChanges(a, b); }
    hide LeaseRowsReadable, Grows;
  }

  lemma PaymentCallKeeps(s: JobTables, call: Call)
    requires JobsSound(s)
    ensures var t := Perform(s, PaymentCall(call)); JobsSound(t) && JobsGrow(s, t)
  {
    ApplyKeeps(s.tables, call);
    hide Sound, TablesGrow, After, JobsSound, JobsGrow, Schedule;
    JobsSoundTables(s);
    ScheduleKeeps(s, After(s.tables, call));
  }

  lemma JobsSoundTables(s: JobTables)
    requires JobsSound(s)
    ensures Sound(s.tables)
  {
    hide Sound;
  }

  lemma ScheduleKeeps(s: JobTables, later: Tables)
    requires JobsSound(s) && Sound(later) && TablesGrow(s.tables, later)
    ensures var t := JobTables(later, Schedule(s.jobs, s.tables, later), s.tokens); JobsSound(t) && JobsGrow(s, t)
  {
    hide Sound, TablesGrow, JobSound, JobGrows, Grows, HasMeltEffect;
    var t := JobTables(later, Schedule(s.jobs, s.tables, later), s.tokens);
    forall p | p in s.jobs ensures JobStands(t, p, s.jobs[p]) && JobGrows(s.jobs[p], s.jobs[p]) {
      JobGrowsReflexive(s.jobs[p]);
      JobStandsLater(s, later, s.tokens, p);
    }
    ScheduleFacts(s.jobs, s.tables, later);
    hide Schedule;
    forall p | p in t.jobs && p !in s.jobs ensures JobStands(t, p, t.jobs[p]) {
      NewJobIsSound(later, p, s.tokens);
    }
  }

  lemma ScheduleFacts(jobs: map<string, Job>, before: Tables, after: Tables)
    requires forall p :: p in jobs <==> HasMeltEffect(before, p)
    ensures forall p :: p in jobs ==> p in Schedule(jobs, before, after) && Schedule(jobs, before, after)[p] == jobs[p]
    ensures forall p :: p in Schedule(jobs, before, after) && p !in jobs ==>
              HasMeltEffect(after, p) && Schedule(jobs, before, after)[p] == NewJob(after.payments[p].effect.value)
    ensures forall p :: HasMeltEffect(after, p) ==> p in Schedule(jobs, before, after)
  {
  }

  /** The job is in order for its payment. */
  predicate JobStands(s: JobTables, p: string, job: Job) {
    HasMeltEffect(s.tables, p) && JobSound(s.tables.payments[p], job, s.tokens)
  }

  lemma JobGrowsReflexive(job: Job)
    ensures JobGrows(job, job)
  {
  }

  lemma JobStandsLater(s: JobTables, later: Tables, tokens: set<string>, p: string)
    requires TablesGrow(s.tables, later) && p in s.jobs && JobStands(s, p, s.jobs[p]) && s.tokens <= tokens
    ensures HasMeltEffect(later, p) && JobSound(later.payments[p], s.jobs[p], tokens)
  {
    PaymentsStay(s.tables, later, p);
    hide TablesGrow;
    EffectStays(s.tables.payments[p], later.payments[p]);
    hide Grows;
    JobStaysSound(s.tables.payments[p], later.payments[p], s.jobs[p], s.tokens, tokens);
    hide JobSound;
  }

  lemma NewJobIsSound(t: Tables, p: string, tokens: set<string>)
    requires HasMeltEffect(t, p)
    ensures p in t.payments && t.payments[p].effect.Some?
    ensures JobSound(t.payments[p], NewJob(t.payments[p].effect.value), tokens)
  {
  }

  /** Appending a lease where claimNext allows it. */
  lemma LeaseKeepsJob(row: PaymentRow, job: Job, tokens: set<string>, lease: Lease)
    requires JobSound(row, job, tokens) && lease.token !in tokens
    requires LeaseReadable(lease) && lease.number == NextNumber(job)
    requires EligibleAt(job).Some? && EligibleAt(job).value <= lease.claimedAt
    ensures var after := job.(attempts := job.attempts + [LeaseRow(lease, None)]);
            JobSound(row, after, tokens + {lease.token}) && JobGrows(job, after) && lease.number == |after.attempts|
  {
    var attempts := job.attempts + [LeaseRow(lease, None)];
    if job.attempts != [] { assert LeaseRowReadable(job.initialAttemptAt, job.attempts, |job.attempts| - 1); }
    forall k | 0 <= k < |attempts| ensures LeaseRowReadable(job.initialAttemptAt, attempts, k) {
      EligibleBeforeOfPrefix(job.initialAttemptAt, job.attempts, attempts, if k < |job.attempts| then k else |job.attempts|);
      if k < |job.attempts| { assert LeaseRowReadable(job.initialAttemptAt, job.attempts, k); }
    }
  }

  lemma {:induction false} EligibleBeforeOfPrefix(initialAttemptAt: nat, a: seq<LeaseRow>, b: seq<LeaseRow>, k: nat)
    requires k <= |a| && k <= |b| && a[..k] == b[..k]
    ensures EligibleBefore(initialAttemptAt, a, k) == EligibleBefore(initialAttemptAt, b, k)
  {
    if k > 0 {
      assert a[..k][k - 1] == b[..k][k - 1];
      assert a[..k - 1] == a[..k][..k - 1] && b[..k - 1] == b[..k][..k - 1];
      EligibleBeforeOfPrefix(initialAttemptAt, a, b, k - 1);
    }
  }

  /** Writing the newest lease's outcome where the trigger allows it. */
  lemma OutcomeKeepsJob(row: PaymentRow, job: Job, tokens: set<string>, o: LeaseOutcome)
    requires JobSound(row, job, tokens) && job.attempts != [] && Last(job.attempts).outcome.None?
    requires Last(job.attempts).lease.claimedAt <= o.recordedAt <= Last(job.attempts).lease.expiresAt
    requires OutcomeFits(row, o) && (o.RetryScheduled? ==> o.recordedAt < o.nextAttemptAt)
    ensures var last := |job.attempts| - 1;
            var after := job.(attempts := job.attempts[last := job.attempts[last].(outcome := Some(o))]);
            JobSound(row, after, tokens) && JobGrows(job, after)
  {
    var last := |job.attempts| - 1;
    var attempts := job.attempts[last := job.attempts[last].(outcome := Some(o))];
    forall k | 0 <= k < |attempts| ensures LeaseRowReadable(job.initialAttemptAt, attempts, k) {
      assert LeaseRowReadable(job.initialAttemptAt, job.attempts, k);
      EligibleBeforeOfPrefix(job.initialAttemptAt, job.attempts, attempts, k);
    }
  }

  /** One job changes, its payment does not. */
  lemma JobWriteKeeps(s: JobTables, p: string, after: Job, tokens: set<string>)
    requires JobsSound(s) && p in s.jobs && s.tokens <= tokens
    requires JobSound(s.tables.payments[p], after, tokens) && JobGrows(s.jobs[p], after)
    ensures var t := JobTables(s.tables, s.jobs[p := after], tokens); JobsSound(t) && JobsGrow(s, t)
  {
    var t := JobTables(s.tables, s.jobs[p := after], tokens);
    GrowIsReflexive(s.tables);
    hide Sound, TablesGrow, JobSound;
    forall q | q in t.jobs ensures JobSound(t.tables.payments[q], t.jobs[q], tokens) {
      if q != p {
        GrowsReflexive(s.tables.payments[q]);
        JobStaysSound(s.tables.payments[q], s.tables.payments[q], s.jobs[q], s.tokens, tokens);
      }
    }
  }

  lemma NothingGrows(s: JobTables)
    ensures JobsGrow(s, s)
  {
    GrowIsReflexive(s.tables);
    hide TablesGrow;
  }

  lemma ClaimKeeps(s: JobTables, candidate: Option<string>, c: ClaimInput)
    requires JobsSound(s)
    ensures var t := Perform(s, CallClaim(candidate, c)); JobsSound(t) && JobsGrow(s, t)
  {
    NothingGrows(s);
    hide JobSound, JobsSound, JobsGrow, JobGrows;
    var claimed := ClaimNext(s, candidate, c);
    if claimed.Ok? && claimed.value.lease.Some? {
      var p := candidate.value;
      var lease := claimed.value.lease.value;
      JobOf(s, p);
      LeaseKeepsJob(s.tables.payments[p], s.jobs[p], s.tokens, lease);
      JobWriteKeeps(s, p, s.jobs[p].(attempts := s.jobs[p].attempts + [LeaseRow(lease, None)]), s.tokens + {lease.token});
    }
  }

  lemma RecordKeeps(s: JobTables, p: string, token: string, o: LeaseOutcome)
    requires JobsSound(s)
    ensures var t := Perform(s, CallRecord(p, token, o)); JobsSound(t) && JobsGrow(s, t)
  {
    hide JobsSound, JobsGrow, JobSound, JobGrows, OutcomeFits, RecordOutcome;
    NothingGrows(s);
    var recorded := RecordOutcome(s, p, token, o);
    if recorded.Ok? {
      RecordConditions(s, p, token, o);
      if !recorded.value.replayed {
        JobOf(s, p);
        OutcomeKeepsJob(s.tables.payments[p], s.jobs[p], s.tokens, o);
        JobWriteKeeps(s, p, WithOutcome(s, p, o).jobs[p], s.tokens);
      }
    }
  }

  lemma JobOf(s: JobTables, p: string)
    requires JobsSound(s) && p in s.jobs
    ensures p in s.tables.payments && JobSound(s.tables.payments[p], s.jobs[p], s.tokens)
  {
    hide Sound, JobSound;
  }

  lemma RecordConditions(s: JobTables, p: string, token: string, o: LeaseOutcome)
    requires RecordOutcome(s, p, token, o).Ok?
    ensures var done := RecordOutcome(s, p, token, o).value;
            && p in s.jobs && s.jobs[p].attempts != [] && Last(s.jobs[p].attempts).lease.token == token
            && (if done.replayed then done.store == s && Last(s.jobs[p].attempts).outcome == Some(o)
                else
                  && done.store == WithOutcome(s, p, o) && Last(s.jobs[p].attempts).outcome.None?
                  && p in s.tables.payments && OutcomeFits(s.tables.payments[p], o)
                  && Last(s.jobs[p].attempts).lease.claimedAt <= o.recordedAt <= Last(s.jobs[p].attempts).lease.expiresAt
                  && (o.RetryScheduled? ==> o.recordedAt < o.nextAttemptAt))
  {
    hide MapJob, OutcomeFits;
  }

  lemma PerformKeeps(s: JobTables, c: JobCall)
    requires JobsSound(s)
    ensures JobsSound(Perform(s, c)) && JobsGrow(s, Perform(s, c))
  {
    hide JobsSound, JobsGrow, Perform;
    match c
    case PaymentCall(call) => PaymentCallKeeps(s, call);
    case CallClaim(candidate, claim) => ClaimKeeps(s, candidate, claim);
    case CallRecord(p, token, o) => RecordKeeps(s, p, token, o);
  }

  lemma {:induction false} RunIsSound(trace: seq<JobTables>, calls: seq<JobCall>, i: nat)
    requires IsRun(trace, calls) && i < |trace|
    ensures JobsSound(trace[i])
  {
    if i == 0 {
      assert MeltStore.IsRun([NoTables], []);
      MeltCalls.RunIsSound([NoTables], [], 0);
      hide Sound;
    } else {
      hide JobsSound, Perform;
      RunIsSound(trace, calls, i - 1);
      PerformKeeps(trace[i - 1], calls[i - 1]);
    }
  }

  lemma {:induction false} RunGrowsJobs(trace: seq<JobTables>, calls: seq<JobCall>, i: nat, j: nat)
    requires IsRun(trace, calls) && i <= j < |trace|
    ensures JobsGrow(trace[i], trace[j])
    decreases j
  {
    hide JobsSound, Perform, JobsGrow;
    if i == j {
      NothingGrows(trace[i]);
    } else {
      RunGrowsJobs(trace, calls, i, j - 1);
      RunIsSound(trace, calls, j - 1);
      PerformKeeps(trace[j - 1], calls[j - 1]);
      GrowthIsTransitive(trace[i], trace[j - 1], trace[j]);
    }
  }

  lemma GrowthIsTransitive(a: JobTables, b: JobTables, c: JobTables)
    requires JobsGrow(a, b) && JobsGrow(b, c)
    ensures JobsGrow(a, c)
  {
    GrowIsTransitive(a.tables, b.tables, c.tables);
    hide TablesGrow, JobGrows;
    forall p | p in a.jobs ensures p in c.jobs && JobGrows(a.jobs[p], c.jobs[p]) {
      JobGrowsIsTransitive(a.jobs[p], b.jobs[p], c.jobs[p]);
    }
  }

  // ------------------------------------------------------------- main results

  lemma JobAt(trace: seq<JobTables>, calls: seq<JobCall>, i: nat, p: string)
    requires IsRun(trace, calls) && i < |trace|
    ensures p in trace[i].jobs <==> HasMeltEffect(trace[i].tables, p)
    ensures p in trace[i].jobs ==> JobSound(trace[i].tables.payments[p], trace[i].jobs[p], trace[i].tokens)
  {
    RunIsSound(trace, calls, i);
    hide IsRun, Sound, JobSound;
  }

  lemma JobLater(trace: seq<JobTables>, calls: seq<JobCall>, i: nat, j: nat, p: string)
    requires IsRun(trace, calls) && i <= j < |trace| && p in trace[i].jobs
    ensures p in trace[i].tables.payments && p in trace[j].tables.payments
    ensures Grows(trace[i].tables.payments[p], trace[j].tables.payments[p])
    ensures p in trace[j].jobs && JobGrows(trace[i].jobs[p], trace[j].jobs[p])
  {
    JobAt(trace, calls, i, p);
    RunGrowsJobs(trace, calls, i, j);
    hide IsRun, JobSound, JobGrows;
    PaymentsStay(trace[i].tables, trace[j].tables, p);
    hide TablesGrow, Grows;
  }

  /** Every dispatched melt has a recovery job, and every job history a run writes is read back. */
  lemma EveryHistoryIsReadable(trace: seq<JobTables>, calls: seq<JobCall>, i: nat, p: string)
    requires IsRun(trace, calls) && i < |trace|
    ensures p in trace[i].jobs <==> HasMeltEffect(trace[i].tables, p)
    ensures p in trace[i].jobs ==> MapJob(trace[i], p).Some?
  {
    hide IsRun;
    JobAt(trace, calls, i, p);
    if p in trace[i].jobs {
      RunIsSound(trace, calls, i);
      SoundJobIsReadable(trace[i], p);
    }
  }

  lemma SoundJobIsReadable(s: JobTables, p: string)
    requires Sound(s.tables) && p in s.jobs && p in s.tables.payments
    requires JobSound(s.tables.payments[p], s.jobs[p], s.tokens)
    ensures MapJob(s, p).Some?
  {
    hide Sound, LeaseRowsReadable;
    EffectMeansStartedIn(s.tables, p);
  }

  lemma EffectMeansStartedIn(t: Tables, p: string)
    requires Sound(t) && p in t.payments && t.payments[p].effect.Some?
    ensures t.payments[p].events != [] && (Active(t.payments[p]) || Terminal(t.payments[p]))
  {
    RowIsSound(t, p);
    hide Sound;
    EffectMeansStarted(t.payments[p]);
  }

  /** Leases are numbered 1, 2, 3, ..., and each is claimed strictly later than the one before. */
  lemma LeasesAreOrdered(trace: seq<JobTables>, calls: seq<JobCall>, i: nat, p: string, j: nat, k: nat)
    requires IsRun(trace, calls) && i < |trace| && p in trace[i].jobs && j < k < |trace[i].jobs[p].attempts|
    ensures var attempts := trace[i].jobs[p].attempts;
            && attempts[j].lease.number == j + 1 && attempts[k].lease.number == k + 1
            && attempts[j].lease.claimedAt < attempts[k].lease.claimedAt
            && attempts[j].lease.token != attempts[k].lease.token
  {
    JobAt(trace, calls, i, p);
    hide IsRun;
    var job := trace[i].jobs[p];
    ClaimsIncrease(job.initialAttemptAt, job.attempts, j, k);
    assert LeaseRowReadable(job.initialAttemptAt, job.attempts, j) && LeaseRowReadable(job.initialAttemptAt, job.attempts, k);
  }

  lemma {:induction false} ClaimsIncrease(initialAttemptAt: nat, attempts: seq<LeaseRow>, j: nat, k: nat)
    requires LeaseRowsReadable(initialAttemptAt, attempts) && j < k < |attempts|
    ensures attempts[j].lease.claimedAt < attempts[k].lease.claimedAt
    decreases k
  {
    assert LeaseRowReadable(initialAttemptAt, attempts, k) && LeaseRowReadable(initialAttemptAt, attempts, k - 1);
    if j < k - 1 { ClaimsIncrease(initialAttemptAt, attempts, j, k - 1); }
  }

  /**
   * Fencing: once a newer lease exists, the older one can record nothing any more, and what stands in its row
   * stays for good.
   */
  lemma OldLeaseIsFenced(trace: seq<JobTables>, calls: seq<JobCall>, i: nat, j: nat, p: string, k: nat, o: LeaseOutcome)
    requires IsRun(trace, calls) && i <= j < |trace| && p in trace[i].jobs && k + 1 < |trace[i].jobs[p].attempts|
    ensures p in trace[j].jobs && k < |trace[j].jobs[p].attempts|
    ensures trace[j].jobs[p].attempts[k] == trace[i].jobs[p].attempts[k]
    ensures RecordOutcome(trace[j], p, trace[i].jobs[p].attempts[k].lease.token, o).Err?
  {
    hide IsRun, LeaseRowsReadable, Grows, CheckedJob;
    JobLater(trace, calls, i, j, p);
    JobAt(trace, calls, j, p);
    var before, now := trace[i].jobs[p].attempts, trace[j].jobs[p].attempts;
    assert before[k].lease == now[k].lease && now[k].lease.token != now[|now| - 1].lease.token;
  }

  /** A lease records at most one outcome: after the first, the same one replays and any other is refused. */
  lemma OneOutcomePerLease(trace: seq<JobTables>, calls: seq<JobCall>, i: nat, j: nat, p: string, token: string,
                           first: LeaseOutcome, second: LeaseOutcome)
    requires IsRun(trace, calls) && i < |calls| && i + 1 <= j < |trace|
    requires calls[i] == CallRecord(p, token, first) && RecordOutcome(trace[i], p, token, first).Ok?
    ensures RecordOutcome(trace[j], p, token, second).Ok? ==>
              second == first && RecordOutcome(trace[j], p, token, second).value == Recorded(trace[j], true)
  {
    assert trace[i + 1] == Perform(trace[i], calls[i]);
    hide LeaseRowsReadable, Grows, MapJob, Perform, OutcomeFits;
    RecordedOutcomeIsStored(trace[i], p, token, first);
    JobLater(trace, calls, i + 1, j, p);
    JobAt(trace, calls, j, p);
    hide IsRun, HasMeltEffect;
    SecondOutcome(trace[i + 1].jobs[p], trace[j], p, token, first, second);
  }

  lemma SecondOutcome(before: Job, s: JobTables, p: string, token: string, first: LeaseOutcome, second: LeaseOutcome)
    requires before.attempts != [] && Last(before.attempts).lease.token == token && Last(before.attempts).outcome == Some(first)
    requires p in s.jobs && JobGrows(before, s.jobs[p]) && DistinctTokens(s.jobs[p].attempts)
    ensures RecordOutcome(s, p, token, second).Ok? ==>
              second == first && RecordOutcome(s, p, token, second).value == Recorded(s, true)
  {
    hide MapJob, OutcomeFits;
    if RecordOutcome(s, p, token, second).Ok? {
      var was, now := before.attempts, s.jobs[p].attempts;
      assert now[|was| - 1].lease.token == token && now[|now| - 1].lease.token == token;
    }
  }

  lemma RecordedOutcomeIsStored(s: JobTables, p: string, token: string, o: LeaseOutcome)
    requires RecordOutcome(s, p, token, o).Ok?
    ensures var t := Perform(s, CallRecord(p, token, o));
            p in t.jobs && t.jobs[p].attempts != [] && Last(t.jobs[p].attempts).lease.token == token
            && Last(t.jobs[p].attempts).outcome == Some(o)
  {
    hide MapJob;
  }

  /** An accepted or released outcome is the payment's own terminal state, then and for good. */
  lemma FinalOutcomeIsTrue(trace: seq<JobTables>, calls: seq<JobCall>, i: nat, j: nat, p: string, k: nat)
    requires IsRun(trace, calls) && i <= j < |trace| && p in trace[i].jobs && k < |trace[i].jobs[p].attempts|
    requires trace[i].jobs[p].attempts[k].outcome.Some?
    ensures p in trace[j].tables.payments
    ensures trace[i].jobs[p].attempts[k].outcome.value.AcceptedOutcome? ==> Current(trace[j].tables.payments[p]).Consumed?
    ensures trace[i].jobs[p].attempts[k].outcome.value.ReleasedOutcome? ==> Current(trace[j].tables.payments[p]).Released?
  {
    JobAt(trace, calls, i, p);
    JobLater(trace, calls, i, j, p);
    hide IsRun, JobGrows, Grows, LeaseRowsReadable;
    var job := trace[i].jobs[p];
    FinalOutcomeIsLast(job.initialAttemptAt, job.attempts, k);
    if Terminal(trace[i].tables.payments[p]) { TerminalNeverChanges(trace[i].tables.payments[p], trace[j].tables.payments[p]); }
  }

  lemma FinalOutcomeIsLast(initialAttemptAt: nat, attempts: seq<LeaseRow>, k: nat)
    requires LeaseRowsReadable(initialAttemptAt, attempts) && k < |attempts| && attempts[k].outcome.Some?
    ensures !attempts[k].outcome.value.RetryScheduled? ==> k == |attempts| - 1
  {
    assert LeaseRowReadable(initialAttemptAt, attempts, k);
  }
}
