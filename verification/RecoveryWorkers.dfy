/**
 * Recovery workers over the job queue (cashu-stellar-melt-recovery-worker.ts):
 * claim a lease, run one recovery, record one outcome with bounded exponential
 * backoff. Any number of workers interleave with each other and with every
 * other repository call, and any of them may die between two steps.
 */
module RecoveryWorkers {
  import opened Outcomes
  import opened MeltRecords
  import opened MeltStore
  import opened MeltRows
  import opened MeltInvariants
  import opened RecoveryJobs
  import MeltTheorems

  const MAX_RECOVERY_ATTEMPTS: nat := 32
  const MAX_RETRY_SECONDS: nat := 3600

  // ----------------------------------------------------------------- policy

  datatype Policy = Policy(maxAttempts: nat, retryBase: nat, retryMax: nat, leaseSeconds: nat)

  predicate ValidPolicy(policy: Policy) {
    && 1 <= policy.leaseSeconds <= MAX_LEASE
    && 1 <= policy.maxAttempts <= MAX_RECOVERY_ATTEMPTS
    && 1 <= policy.retryBase <= MAX_RETRY_SECONDS
    && policy.retryBase <= policy.retryMax <= MAX_RETRY_SECONDS
  }

  function Pow2(n: nat): nat { if n == 0 then 1 else 2 * Pow2(n - 1) }

  function RetryDelay(policy: Policy, number: nat): nat
    requires number > 0
  {
    Min(policy.retryBase * Pow2(number - 1), policy.retryMax)
  }

  // --------------------------------------------------------------- outcomes

  datatype FailureCode =
    | ClockUnavailable | EffectNotRecoverable | EvidenceRefused | BadConfiguration | InvalidRequest
    | OperatorNotConfigured | QuoteEvidenceGone | RequestAborted | ReservationNotFound | StoreUnavailable

  /** What one call of the recovery coordinator comes to. */
  datatype Report =
    | Finished(paymentId: string, accepted: bool)
    | StillPending(paymentId: string)
    | NeedsOperator(paymentId: string, why: AttentionReason)
    | Failed(code: FailureCode)
    | Crashed

  /** retryOrExhaust. */
  function RetryOrExhaust(policy: Policy, lease: Lease, at: nat, reason: RetryReason): LeaseOutcome
    requires lease.number > 0
  {
    if lease.number >= policy.maxAttempts then AttentionRequired(RetryExhausted, at)
    else RetryScheduled(reason, at, at + RetryDelay(policy, lease.number))
  }

  /** selectOutcome. */
  function SelectOutcome(policy: Policy, p: string, lease: Lease, at: nat, report: Report): LeaseOutcome
    requires lease.number > 0
  {
    match report
    case Finished(q, accepted) =>
      if q != p then AttentionRequired(EvidenceInvalid, at)
      else if accepted then AcceptedOutcome(at) else ReleasedOutcome(at)
    case StillPending(q) =>
      if q != p then AttentionRequired(EvidenceInvalid, at) else RetryOrExhaust(policy, lease, at, NonterminalEvidence)
    case NeedsOperator(q, why) =>
      if q != p then AttentionRequired(EvidenceInvalid, at)
      else if why.OperatorResponseInvalid? then AttentionRequired(ResponseInvalid, at)
      else RetryOrExhaust(policy, lease, at, StateUnknown)
    case Failed(code) =>
      if code.RequestAborted? then RetryOrExhaust(policy, lease, at, WorkerAborted)
      else if code.StoreUnavailable? then RetryOrExhaust(policy, lease, at, StorageUnavailable)
      else if code.ClockUnavailable? || code.BadConfiguration? || code.OperatorNotConfigured? then
        AttentionRequired(ConfigurationInvalid, at)
      else AttentionRequired(EvidenceInvalid, at)
    case Crashed => RetryOrExhaust(policy, lease, at, StorageUnavailable)
  }

  /** Every delay lies between the base and the maximum, and a later attempt never waits less. */
  lemma DelaysAreBoundedAndGrow(policy: Policy, m: nat, n: nat)
    requires ValidPolicy(policy) && 0 < m <= n
    ensures policy.retryBase <= RetryDelay(policy, m) <= RetryDelay(policy, n) <= policy.retryMax
  {
    Pow2Grows(0, m - 1);
    Pow2Grows(m - 1, n - 1);
    Scale(policy.retryBase, Pow2(0), Pow2(m - 1));
    Scale(policy.retryBase, Pow2(m - 1), Pow2(n - 1));
  }

  /** The first delay is the base, and each next one is double the one before, up to the maximum. */
  lemma DelaysDouble(policy: Policy, n: nat)
    requires ValidPolicy(policy) && n > 0
    ensures RetryDelay(policy, 1) == policy.retryBase
    ensures RetryDelay(policy, n + 1) == Min(2 * RetryDelay(policy, n), policy.retryMax)
  {
    var delay := policy.retryBase * Pow2(n - 1);
    assert policy.retryBase * Pow2(n) == 2 * delay;
  }

  lemma Scale(base: nat, a: nat, b: nat)
    requires a <= b
    ensures base * a <= base * b
  {
  }

  lemma {:induction false} Pow2Grows(a: nat, b: nat)
    requires a <= b
    ensures 1 <= Pow2(a) <= Pow2(b)
    decreases b
  {
    if a < b {
      Pow2Grows(a, b - 1);
    } else if a > 0 {
      Pow2Grows(a - 1, a - 1);
    }
  }

  // ----------------------------------------------------------------- system

  datatype Phase = Holding | Recovering

  datatype Worker = Worker(policy: Policy, p: string, lease: Lease, phase: Phase)

  datatype Answer = Answer(p: string, accepted: bool)

  /** `recoveries` lists every coordinator call made, `answers` every terminal state a worker reported. */
  datatype System = System(
    policies: set<Policy>, store: JobTables, workers: map<nat, Worker>,
    recoveries: seq<(string, nat)>, answers: seq<Answer>)

  datatype Step =
    | OtherCall(call: Call)
    | TakeLease(id: nat, policy: Policy, candidate: Option<string>, token: string, workerId: string, at: nat)
    | Recover(id: nat)
    | Record(id: nat, report: Report, at: nat)
    | Die(id: nat)

  ghost predicate Enabled(s: System, step: Step) {
    match step
    case OtherCall(_) => true
    case TakeLease(id, policy, _, _, _, _) => id !in s.workers && policy in s.policies && ValidPolicy(policy)
    case Recover(id) =>
      id in s.workers && s.workers[id].phase.Holding? && s.workers[id].lease.number <= s.workers[id].policy.maxAttempts
    case Record(id, _, _) =>
      id in s.workers && s.workers[id].lease.number > 0
      && (s.workers[id].phase.Recovering? || s.workers[id].lease.number > s.workers[id].policy.maxAttempts)
    case Die(id) => id in s.workers
  }

  function OutcomeOf(w: Worker, report: Report, at: nat): LeaseOutcome
    requires w.lease.number > 0
  {
    if w.phase.Holding? then AttentionRequired(RetryExhausted, at) else SelectOutcome(w.policy, w.p, w.lease, at, report)
  }

  function LeaseRequest(policy: Policy, token: string, workerId: string, at: nat): ClaimInput {
    ClaimInput(token, workerId, at, at + policy.leaseSeconds)
  }

  /** persistOutcome with loadConcurrentTerminal: the terminal state the worker reports, if any. */
  function Reported(s: JobTables, p: string, token: string, o: LeaseOutcome): Option<Answer> {
    match RecordOutcome(s, p, token, o)
    case Ok(_) =>
      if o.AcceptedOutcome? then Some(Answer(p, true)) else if o.ReleasedOutcome? then Some(Answer(p, false)) else None
    case Err(e) =>
      if !e.LeaseLost? || p !in s.jobs then None
      else match MapJob(s, p)
        case Some(Completed(accepted)) => Some(Answer(p, accepted))
        case _ => None
  }

  ghost function Next(s: System, step: Step): System
    requires Enabled(s, step)
  {
    match step
    case OtherCall(call) => s.(store := Perform(s.store, PaymentCall(call)))
    case TakeLease(id, policy, candidate, token, workerId, at) =>
      (match ClaimNext(s.store, candidate, LeaseRequest(policy, token, workerId, at))
       case Err(_) => s
       case Ok(done) =>
         if done.lease.None? || candidate.None? then s.(store := done.store)
         else s.(store := done.store, workers := s.workers[id := Worker(policy, candidate.value, done.lease.value, Holding)]))
    case Recover(id) =>
      var w := s.workers[id];
      s.(workers := s.workers[id := w.(phase := Recovering)], recoveries := s.recoveries + [(w.p, w.lease.number)])
    case Record(id, report, at) =>
      var w := s.workers[id];
      var gone := s.(workers := s.workers - {id});
      if at < w.lease.claimedAt || w.lease.expiresAt < at then gone
      else
        var o := OutcomeOf(w, report, at);
        var answer := Reported(s.store, w.p, w.lease.token, o);
        gone.(store := Perform(s.store, CallRecord(w.p, w.lease.token, o)),
              answers := s.answers + if answer.Some? then [answer.value] else [])
    case Die(id) => s.(workers := s.workers - {id})
  }

  ghost predicate IsRun(trace: seq<System>, steps: seq<Step>, policies: set<Policy>) {
    && |trace| == |steps| + 1
    && trace[0] == System(policies, NoJobs, map[], [], [])
    && forall i :: 0 <= i < |steps| ==> Enabled(trace[i], steps[i]) && trace[i + 1] == Next(trace[i], steps[i])
  }

  // -------------------------------------------------------------- invariants

  predicate LeaseExists(jobs: map<string, Job>, p: string, number: nat) {
    p in jobs && 1 <= number <= |jobs[p].attempts|
  }

  predicate Holds(w: Worker, p: string, number: nat) {
    w.p == p && w.lease.number == number
  }

  /** A worker's lease is a stored one, by number and token. */
  predicate WorkerSound(jobs: map<string, Job>, policies: set<Policy>, w: Worker) {
    && w.policy in policies && ValidPolicy(w.policy)
    && LeaseExists(jobs, w.p, w.lease.number)
    && jobs[w.p].attempts[w.lease.number - 1].lease == w.lease
  }

  ghost predicate WorkersSound(jobs: map<string, Job>, policies: set<Policy>, workers: map<nat, Worker>) {
    && (forall id :: id in workers ==> WorkerSound(jobs, policies, workers[id]))
    && (forall a, b :: a in workers && b in workers && a != b ==> !Holds(workers[a], workers[b].p, workers[b].lease.number))
  }

  predicate WithinSomePolicy(policies: set<Policy>, number: nat) {
    exists policy :: policy in policies && number <= policy.maxAttempts
  }

  /** A lease is recovered at most once, and a lease still on hold not at all. */
  ghost predicate RecoveriesSound(jobs: map<string, Job>, policies: set<Policy>, workers: map<nat, Worker>, recoveries: seq<(string, nat)>) {
    && (forall i :: 0 <= i < |recoveries| ==>
          LeaseExists(jobs, recoveries[i].0, recoveries[i].1) && WithinSomePolicy(policies, recoveries[i].1))
    && (forall i, k :: 0 <= i < k < |recoveries| ==> recoveries[i] != recoveries[k])
    && (forall id, i :: id in workers && workers[id].phase.Holding? && 0 <= i < |recoveries| ==>
          !Holds(workers[id], recoveries[i].0, recoveries[i].1))
  }

  /** A retry was scheduled by a policy that still allowed one, after that policy's delay. */
  predicate BackedOff(policies: set<Policy>, row: LeaseRow) {
    row.outcome.Some? && row.outcome.value.RetryScheduled? && row.lease.number > 0 ==>
      exists policy :: policy in policies && RetriedUnder(policy, row)
  }

  predicate RetriedUnder(policy: Policy, row: LeaseRow)
    requires row.outcome.Some? && row.outcome.value.RetryScheduled? && row.lease.number > 0
  {
    && ValidPolicy(policy) && row.lease.number < policy.maxAttempts
    && row.outcome.value.nextAttemptAt == row.outcome.value.recordedAt + RetryDelay(policy, row.lease.number)
  }

  ghost predicate BackoffSound(policies: set<Policy>, jobs: map<string, Job>) {
    forall p, k :: p in jobs && 0 <= k < |jobs[p].attempts| ==> BackedOff(policies, jobs[p].attempts[k])
  }

  predicate AnswerTrue(t: Tables, a: Answer) {
    a.p in t.payments && if a.accepted then Current(t.payments[a.p]).Consumed? else Current(t.payments[a.p]).Released?
  }

  predicate AnswersTrue(t: Tables, answers: seq<Answer>) {
    forall i :: 0 <= i < |answers| ==> AnswerTrue(t, answers[i])
  }

  ghost predicate Invariant(s: System) {
    && JobsSound(s.store)
    && WorkersSound(s.store.jobs, s.policies, s.workers)
    && RecoveriesSound(s.store.jobs, s.policies, s.workers, s.recoveries)
    && BackoffSound(s.policies, s.store.jobs)
    && AnswersTrue(s.store.tables, s.answers)
  }

  // ------------------------------------------------------------ growing stores

  lemma LeaseStays(a: JobTables, b: JobTables, p: string, number: nat)
    requires JobsGrow(a, b) && LeaseExists(a.jobs, p, number)
    ensures LeaseExists(b.jobs, p, number) && b.jobs[p].attempts[number - 1].lease == a.jobs[p].attempts[number - 1].lease
  {
    hide TablesGrow;
  }

  lemma AnswerStays(a: JobTables, b: JobTables, answer: Answer)
    requires JobsGrow(a, b) && AnswerTrue(a.tables, answer)
    ensures AnswerTrue(b.tables, answer)
  {
    MeltTheorems.PaymentsStay(a.tables, b.tables, answer.p);
    MeltTheorems.TerminalNeverChanges(a.tables.payments[answer.p], b.tables.payments[answer.p]);
    hide JobsGrow, Grows;
  }

  lemma StoreGrows(s: System, later: JobTables)
    requires Invariant(s) && JobsGrow(s.store, later)
    ensures WorkersSound(later.jobs, s.policies, s.workers)
    ensures RecoveriesSound(later.jobs, s.policies, s.workers, s.recoveries)
    ensures AnswersTrue(later.tables, s.answers)
  {
    hide JobsGrow, JobsSound, LeaseExists, AnswerTrue, BackoffSound, WithinSomePolicy, Holds;
    forall id | id in s.workers ensures WorkerSound(later.jobs, s.policies, s.workers[id]) {
      assert WorkerSound(s.store.jobs, s.policies, s.workers[id]);
      LeaseStays(s.store, later, s.workers[id].p, s.workers[id].lease.number);
    }
    forall i | 0 <= i < |s.recoveries| ensures LeaseExists(later.jobs, s.recoveries[i].0, s.recoveries[i].1) {
      LeaseStays(s.store, later, s.recoveries[i].0, s.recoveries[i].1);
    }
    forall i | 0 <= i < |s.answers| ensures AnswerTrue(later.tables, s.answers[i]) {
      AnswerStays(s.store, later, s.answers[i]);
    }
  }

  // -------------------------------------------------------------------- steps

  lemma OtherCallKeeps(s: System, call: Call)
    requires Invariant(s)
    ensures Invariant(Next(s, OtherCall(call)))
  {
    hide Invariant, Perform, JobsGrow, JobsSound;
    InvariantParts(s);
    PerformKeeps(s.store, PaymentCall(call));
    var later := Perform(s.store, PaymentCall(call));
    StoreGrows(s, later);
    ScheduledBackoff(s.policies, s.store, call);
    hide WorkersSound, RecoveriesSound, BackoffSound, AnswersTrue;
    InvariantFrom(s.(store := later));
  }

  lemma InvariantParts(s: System)
    requires Invariant(s)
    ensures JobsSound(s.store) && WorkersSound(s.store.jobs, s.policies, s.workers)
    ensures RecoveriesSound(s.store.jobs, s.policies, s.workers, s.recoveries)
    ensures BackoffSound(s.policies, s.store.jobs) && AnswersTrue(s.store.tables, s.answers)
  {
    hide JobsSound, WorkersSound, RecoveriesSound, BackoffSound, AnswersTrue;
  }

  lemma InvariantFrom(s: System)
    requires JobsSound(s.store) && WorkersSound(s.store.jobs, s.policies, s.workers)
    requires RecoveriesSound(s.store.jobs, s.policies, s.workers, s.recoveries)
    requires BackoffSound(s.policies, s.store.jobs) && AnswersTrue(s.store.tables, s.answers)
    ensures Invariant(s)
  {
    hide JobsSound, WorkersSound, RecoveriesSound, BackoffSound, AnswersTrue;
  }

  lemma ScheduledBackoff(policies: set<Policy>, s: JobTables, call: Call)
    requires JobsSound(s) && BackoffSound(policies, s.jobs)
    ensures BackoffSound(policies, Perform(s, PaymentCall(call)).jobs)
  {
    var later := After(s.tables, call);
    hide Sound, After, BackedOff, JobSound, HasMeltEffect;
    ScheduleFacts(s.jobs, s.tables, later);
    hide Schedule;
    forall p, k | p in Schedule(s.jobs, s.tables, later) && 0 <= k < |Schedule(s.jobs, s.tables, later)[p].attempts|
      ensures BackedOff(policies, Schedule(s.jobs, s.tables, later)[p].attempts[k])
    {
      if p in s.jobs { assert BackedOff(policies, s.jobs[p].attempts[k]); }
    }
  }

  /** What a successful claim adds. */
  lemma ClaimShape(s: JobTables, candidate: Option<string>, c: ClaimInput)
    requires JobsSound(s) && ClaimNext(s, candidate, c).Ok? && ClaimNext(s, candidate, c).value.lease.Some?
    ensures var t, lease := ClaimNext(s, candidate, c).value.store, ClaimNext(s, candidate, c).value.lease.value;
            && candidate.Some? && candidate.value in s.jobs && t.tables == s.tables
            && t.jobs == s.jobs[candidate.value := s.jobs[candidate.value].(
                           attempts := s.jobs[candidate.value].attempts + [LeaseRow(lease, None)])]
            && lease.number == |s.jobs[candidate.value].attempts| + 1
    ensures ClaimNext(s, candidate, c).value.store == Perform(s, CallClaim(candidate, c))
  {
    hide JobsSound, JobSound;
    var p := candidate.value;
    JobOf(s, p);
    NumberIsNext(s.tables.payments[p], s.jobs[p], s.tokens);
  }

  lemma NumberIsNext(row: PaymentRow, job: Job, tokens: set<string>)
    requires JobSound(row, job, tokens)
    ensures NextNumber(job) == |job.attempts| + 1
  {
    if job.attempts != [] { assert LeaseRowReadable(job.initialAttemptAt, job.attempts, |job.attempts| - 1); }
  }

  lemma TakeLeaseKeeps(s: System, step: Step)
    requires Invariant(s) && step.TakeLease? && Enabled(s, step)
    ensures Invariant(Next(s, step))
  {
    hide Invariant, JobsGrow, JobsSound, ClaimNext, ValidPolicy;
    InvariantParts(s);
    var c := LeaseRequest(step.policy, step.token, step.workerId, step.at);
    var claimed := ClaimNext(s.store, step.candidate, c);
    if claimed.Ok? {
      PerformKeeps(s.store, CallClaim(step.candidate, c));
      if claimed.value.lease.None? {
        NoClaimShape(s.store, step.candidate, c);
        assert Next(s, step) == s;
      } else {
        ClaimShape(s.store, step.candidate, c);
        StoreGrows(s, claimed.value.store);
        var w := Worker(step.policy, step.candidate.value, claimed.value.lease.value, Holding);
        hide Perform;
        NewWorker(s, claimed.value.store, step.id, w);
        hide WorkersSound, RecoveriesSound, BackoffSound, AnswersTrue;
        InvariantFrom(Next(s, step));
      }
    }
  }

  lemma NoClaimShape(s: JobTables, candidate: Option<string>, c: ClaimInput)
    requires ClaimNext(s, candidate, c).Ok? && ClaimNext(s, candidate, c).value.lease.None?
    ensures ClaimNext(s, candidate, c).value.store == s
  {
  }

  /** A worker holding a lease that did not exist before. */
  lemma NewWorker(s: System, t: JobTables, id: nat, w: Worker)
    requires Invariant(s) && id !in s.workers && w.policy in s.policies && ValidPolicy(w.policy) && w.phase.Holding?
    requires w.p in s.store.jobs && w.lease.number == |s.store.jobs[w.p].attempts| + 1
    requires t.jobs == s.store.jobs[w.p := s.store.jobs[w.p].(attempts := s.store.jobs[w.p].attempts + [LeaseRow(w.lease, None)])]
    requires WorkersSound(t.jobs, s.policies, s.workers)
    requires RecoveriesSound(t.jobs, s.policies, s.workers, s.recoveries)
    ensures WorkersSound(t.jobs, s.policies, s.workers[id := w])
    ensures RecoveriesSound(t.jobs, s.policies, s.workers[id := w], s.recoveries)
    ensures BackoffSound(s.policies, t.jobs)
  {
    hide JobsSound, ValidPolicy, WithinSomePolicy;
    var workers := s.workers[id := w];
    assert WorkerSound(t.jobs, s.policies, w);
    forall a | a in s.workers ensures !Holds(s.workers[a], w.p, w.lease.number) {
      assert WorkerSound(s.store.jobs, s.policies, s.workers[a]);
    }
    forall i | 0 <= i < |s.recoveries| ensures !Holds(w, s.recoveries[i].0, s.recoveries[i].1) {
      assert LeaseExists(s.store.jobs, s.recoveries[i].0, s.recoveries[i].1);
    }
    forall p, k | p in t.jobs && 0 <= k < |t.jobs[p].attempts| ensures BackedOff(s.policies, t.jobs[p].attempts[k]) {
      if p != w.p || k < |s.store.jobs[p].attempts| { assert BackedOff(s.policies, s.store.jobs[p].attempts[k]); }
    }
  }

  lemma RecoverKeeps(s: System, id: nat)
    requires Invariant(s) && Enabled(s, Recover(id))
    ensures Invariant(Next(s, Recover(id)))
  {
    hide Invariant, JobsSound;
    InvariantParts(s);
    var w := s.workers[id];
    assert WorkerSound(s.store.jobs, s.policies, w);
    assert w.policy in s.policies && w.lease.number <= w.policy.maxAttempts;
    RecoveryAdded(s.store.jobs, s.policies, s.workers, s.recoveries, id);
    hide WorkersSound, RecoveriesSound, BackoffSound, AnswersTrue;
    InvariantFrom(Next(s, Recover(id)));
  }

  lemma RecoveryAdded(jobs: map<string, Job>, policies: set<Policy>, workers: map<nat, Worker>, recoveries: seq<(string, nat)>, id: nat)
    requires WorkersSound(jobs, policies, workers) && RecoveriesSound(jobs, policies, workers, recoveries)
    requires id in workers && workers[id].phase.Holding? && WithinSomePolicy(policies, workers[id].lease.number)
    ensures var w := workers[id];
            && WorkersSound(jobs, policies, workers[id := w.(phase := Recovering)])
            && RecoveriesSound(jobs, policies, workers[id := w.(phase := Recovering)], recoveries + [(w.p, w.lease.number)])
  {
    hide LeaseExists, ValidPolicy, WithinSomePolicy;
    var w := workers[id];
    assert WorkerSound(jobs, policies, w);
    var more := recoveries + [(w.p, w.lease.number)];
    forall i, k | 0 <= i < k < |more| ensures more[i] != more[k] {
      if k == |recoveries| { assert !Holds(w, recoveries[i].0, recoveries[i].1); }
    }
  }

  lemma WorkerGone(jobs: map<string, Job>, policies: set<Policy>, workers: map<nat, Worker>, recoveries: seq<(string, nat)>, id: nat)
    requires WorkersSound(jobs, policies, workers) && RecoveriesSound(jobs, policies, workers, recoveries)
    ensures WorkersSound(jobs, policies, workers - {id}) && RecoveriesSound(jobs, policies, workers - {id}, recoveries)
  {
    hide LeaseExists, WorkerSound, WithinSomePolicy, Holds;
  }

  lemma RecordStepKeeps(s: System, id: nat, report: Report, at: nat)
    requires Invariant(s) && Enabled(s, Record(id, report, at))
    ensures Invariant(Next(s, Record(id, report, at)))
  {
    hide Invariant, JobsSound, JobsGrow, Perform, Reported, OutcomeOf;
    InvariantParts(s);
    var w := s.workers[id];
    WorkerGone(s.store.jobs, s.policies, s.workers, s.recoveries, id);
    if at < w.lease.claimedAt || w.lease.expiresAt < at {
      hide WorkersSound, RecoveriesSound, BackoffSound, AnswersTrue;
      InvariantFrom(Next(s, Record(id, report, at)));
    } else {
      var o := OutcomeOf(w, report, at);
      var c := CallRecord(w.p, w.lease.token, o);
      var later := Perform(s.store, c);
      PerformKeeps(s.store, c);
      StoreGrows(s, later);
      WorkerGone(later.jobs, s.policies, s.workers, s.recoveries, id);
      assert WorkerSound(s.store.jobs, s.policies, w);
      RecordedBackoff(s, w, report, at);
      ReportedIsTrue(s.store, w.p, w.lease.token, o);
      hide WorkersSound, RecoveriesSound, BackoffSound, WorkerSound, AnswerTrue;
      InvariantFrom(Next(s, Record(id, report, at)));
    }
  }

  /** The outcome a worker writes is its policy's. */
  lemma RecordedBackoff(s: System, w: Worker, report: Report, at: nat)
    requires JobsSound(s.store) && BackoffSound(s.policies, s.store.jobs) && WorkerSound(s.store.jobs, s.policies, w)
    requires w.lease.number > 0
    ensures BackoffSound(s.policies, Perform(s.store, CallRecord(w.p, w.lease.token, OutcomeOf(w, report, at))).jobs)
  {
    hide JobsSound, RecordOutcome, OutcomeOf, RetriedUnder;
    var o := OutcomeOf(w, report, at);
    var recorded := RecordOutcome(s.store, w.p, w.lease.token, o);
    if recorded.Ok? {
      RecordConditions(s.store, w.p, w.lease.token, o);
      if !recorded.value.replayed {
        var attempts := s.store.jobs[w.p].attempts;
        NewestIsOurs(s.store, s.policies, w);
        assert BackedOff(s.policies, attempts[|attempts| - 1].(outcome := Some(o))) by { OutcomeBacksOff(w, report, at); }
        hide BackedOff;
        forall p, k | p in recorded.value.store.jobs && 0 <= k < |recorded.value.store.jobs[p].attempts|
          ensures BackedOff(s.policies, recorded.value.store.jobs[p].attempts[k])
        {
          if p != w.p || k != |attempts| - 1 { assert BackedOff(s.policies, s.store.jobs[p].attempts[k]); }
        }
      }
    }
  }

  lemma OutcomeBacksOff(w: Worker, report: Report, at: nat)
    requires ValidPolicy(w.policy) && w.lease.number > 0
    ensures OutcomeOf(w, report, at).RetryScheduled? ==>
              RetriedUnder(w.policy, LeaseRow(w.lease, Some(OutcomeOf(w, report, at))))
  {
    hide RetryDelay, ValidPolicy;
  }

  /** Tokens are unique, so a lease whose token is the newest one's is the newest lease. */
  lemma NewestIsOurs(s: JobTables, policies: set<Policy>, w: Worker)
    requires JobsSound(s) && WorkerSound(s.jobs, policies, w) && s.jobs[w.p].attempts != []
    requires Last(s.jobs[w.p].attempts).lease.token == w.lease.token
    ensures Last(s.jobs[w.p].attempts).lease == w.lease
  {
    hide JobsSound, LeaseRowsReadable, ValidPolicy;
    JobOf(s, w.p);
  }

  /** A worker reports only terminal states that the payment is in. */
  lemma ReportedIsTrue(s: JobTables, p: string, token: string, o: LeaseOutcome)
    requires JobsSound(s)
    ensures Reported(s, p, token, o).Some? ==> AnswerTrue(Perform(s, CallRecord(p, token, o)).tables, Reported(s, p, token, o).value)
  {
    hide JobsSound, LeaseRowsReadable, RecordOutcome;
    if RecordOutcome(s, p, token, o).Ok? {
      RecordConditions(s, p, token, o);
      JobOf(s, p);
    }
  }

  lemma NextKeeps(s: System, step: Step)
    requires Invariant(s) && Enabled(s, step)
    ensures Invariant(Next(s, step)) && Next(s, step).policies == s.policies
  {
    hide Invariant, Perform, ClaimNext, Reported, OutcomeOf;
    match step
    case OtherCall(call) => OtherCallKeeps(s, call);
    case TakeLease(_, _, _, _, _, _) => TakeLeaseKeeps(s, step);
    case Recover(id) => RecoverKeeps(s, id);
    case Record(id, report, at) => RecordStepKeeps(s, id, report, at);
    case Die(id) =>
      InvariantParts(s);
      WorkerGone(s.store.jobs, s.policies, s.workers, s.recoveries, id);
      hide WorkersSound, RecoveriesSound, BackoffSound, AnswersTrue, JobsSound;
      InvariantFrom(Next(s, step));
  }

  lemma {:induction false} RunInvariant(trace: seq<System>, steps: seq<Step>, policies: set<Policy>, i: nat)
    requires IsRun(trace, steps, policies) && i < |trace|
    ensures Invariant(trace[i]) && trace[i].policies == policies
  {
    if i == 0 {
      assert RecoveryJobs.IsRun([NoJobs], []);
      RecoveryJobs.RunIsSound([NoJobs], [], 0);
      hide JobsSound;
    } else {
      hide Invariant, Next;
      RunInvariant(trace, steps, policies, i - 1);
      NextKeeps(trace[i - 1], steps[i - 1]);
    }
  }

  // ------------------------------------------------------------- main results

  function CountFor(recoveries: seq<(string, nat)>, p: string): nat {
    if recoveries == [] then 0
    else CountFor(recoveries[..|recoveries| - 1], p) + if Last(recoveries).0 == p then 1 else 0
  }

  function NumbersFor(recoveries: seq<(string, nat)>, p: string): set<nat> {
    set i | 0 <= i < |recoveries| && recoveries[i].0 == p :: recoveries[i].1
  }

  lemma {:induction false} DistinctRecoveriesCount(recoveries: seq<(string, nat)>, p: string)
    requires forall i, k :: 0 <= i < k < |recoveries| ==> recoveries[i] != recoveries[k]
    ensures CountFor(recoveries, p) == |NumbersFor(recoveries, p)|
  {
    if recoveries != [] {
      var front, last := recoveries[..|recoveries| - 1], Last(recoveries);
      DistinctRecoveriesCount(front, p);
      NumbersForLast(front, last, p);
      assert front + [last] == recoveries;
      assert last.0 == p ==> last.1 !in NumbersFor(front, p);
    }
  }

  lemma NumbersForLast(front: seq<(string, nat)>, last: (string, nat), p: string)
    ensures NumbersFor(front + [last], p) == NumbersFor(front, p) + if last.0 == p then {last.1} else {}
  {
    forall k | k in NumbersFor(front, p) ensures k in NumbersFor(front + [last], p) {
      var i :| 0 <= i < |front| && front[i].0 == p && front[i].1 == k;
      assert (front + [last])[i] == front[i];
    }
    if last.0 == p { assert (front + [last])[|front|] == last; }
  }

  lemma {:induction false} FirstNumbers(numbers: set<nat>, n: nat)
    requires forall k :: k in numbers ==> 1 <= k <= n
    ensures |numbers| <= n
  {
    if n == 0 {
      assert numbers == {};
    } else {
      FirstNumbers(numbers - {n}, n - 1);
    }
  }

  /** When no worker's policy allows more than `bound` attempts, a payment is recovered at most `bound` times. */
  lemma RecoveriesAreBounded(trace: seq<System>, steps: seq<Step>, policies: set<Policy>, i: nat, p: string, bound: nat)
    requires IsRun(trace, steps, policies) && i < |trace|
    requires forall policy :: policy in policies ==> policy.maxAttempts <= bound
    ensures CountFor(trace[i].recoveries, p) <= bound
  {
    RunInvariant(trace, steps, policies, i);
    hide IsRun, JobsSound, Invariant;
    InvariantParts(trace[i]);
    hide WorkersSound, BackoffSound, LeaseExists;
    DistinctRecoveriesCount(trace[i].recoveries, p);
    FirstNumbers(NumbersFor(trace[i].recoveries, p), bound);
  }

  /** Under one shared policy, stored retries wait between base and maximum, and later ones never less. */
  lemma StoredDelaysGrow(trace: seq<System>, steps: seq<Step>, policy: Policy, i: nat, p: string, j: nat, k: nat)
    requires IsRun(trace, steps, {policy}) && i < |trace| && p in trace[i].store.jobs
    requires j <= k < |trace[i].store.jobs[p].attempts|
    requires var attempts := trace[i].store.jobs[p].attempts;
             && attempts[j].outcome.Some? && attempts[j].outcome.value.RetryScheduled?
             && attempts[k].outcome.Some? && attempts[k].outcome.value.RetryScheduled?
    ensures var first, second := trace[i].store.jobs[p].attempts[j].outcome.value, trace[i].store.jobs[p].attempts[k].outcome.value;
            policy.retryBase <= first.nextAttemptAt - first.recordedAt <= second.nextAttemptAt - second.recordedAt <= policy.retryMax
    ensures k + 1 < policy.maxAttempts
  {
    RunInvariant(trace, steps, {policy}, i);
    hide IsRun, Invariant, JobsSound, LeaseRowsReadable, BackedOff, RetryDelay;
    InvariantParts(trace[i]);
    var job := trace[i].store.jobs[p];
    JobOf(trace[i].store, p);
    assert BackedOff({policy}, job.attempts[j]) && BackedOff({policy}, job.attempts[k]);
    JobDelaysGrow(policy, job, j, k);
  }

  lemma JobDelaysGrow(policy: Policy, job: Job, j: nat, k: nat)
    requires LeaseRowsReadable(job.initialAttemptAt, job.attempts) && j <= k < |job.attempts|
    requires BackedOff({policy}, job.attempts[j]) && BackedOff({policy}, job.attempts[k])
    requires job.attempts[j].outcome.Some? && job.attempts[j].outcome.value.RetryScheduled?
    requires job.attempts[k].outcome.Some? && job.attempts[k].outcome.value.RetryScheduled?
    ensures var first, second := job.attempts[j].outcome.value, job.attempts[k].outcome.value;
            policy.retryBase <= first.nextAttemptAt - first.recordedAt <= second.nextAttemptAt - second.recordedAt <= policy.retryMax
    ensures k + 1 < policy.maxAttempts
  {
    hide RetryDelay, ValidPolicy;
    assert LeaseRowReadable(job.initialAttemptAt, job.attempts, j) && LeaseRowReadable(job.initialAttemptAt, job.attempts, k);
    DelaysAreBoundedAndGrow(policy, j + 1, k + 1);
  }

  /** Whatever terminal states workers report for one payment, they agree, and the payment is in that state. */
  lemma WorkersAgree(trace: seq<System>, steps: seq<Step>, policies: set<Policy>, i: nat, a: nat, b: nat)
    requires IsRun(trace, steps, policies) && i < |trace|
    requires a < |trace[i].answers| && b < |trace[i].answers| && trace[i].answers[a].p == trace[i].answers[b].p
    ensures trace[i].answers[a] == trace[i].answers[b]
    ensures AnswerTrue(trace[i].store.tables, trace[i].answers[a])
  {
    RunInvariant(trace, steps, policies, i);
    hide IsRun, JobsSound;
    InvariantParts(trace[i]);
    hide Invariant;
    assert AnswerTrue(trace[i].store.tables, trace[i].answers[a]) && AnswerTrue(trace[i].store.tables, trace[i].answers[b]);
  }
}
