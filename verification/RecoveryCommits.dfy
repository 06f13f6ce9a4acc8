/**
 * When a lease on a recovery job is granted, when its outcome is recorded, and
 * which outcome a worker stores for each report of the recovery it made.
 */
module RecoveryCommits {
  import opened Outcomes
  import opened MeltRecords
  import opened RecoveryJobs
  import Ledger

  // ---------------------------------------------------------------- claiming

  /** A dispatched melt is due: first a minute after dispatch, then when its lease runs out or its retry comes up. */
  predicate Due(s: JobTables, p: string, at: nat)
    requires HasMeltEffect(s.tables, p) && p in s.jobs
  {
    var attempts := s.jobs[p].attempts;
    && Active(s.tables.payments[p])
    && if attempts == [] then
         s.tables.payments[p].effect.value.startedAt + 60 <= at || Ledger.MAX_SAFE_INTEGER <= at
       else if Last(attempts).outcome.None? then Last(attempts).lease.expiresAt <= at
       else Last(attempts).outcome.value.RetryScheduled? && Last(attempts).outcome.value.nextAttemptAt <= at
  }

  /**
   * A lease is granted exactly on a dispatched melt that is due, for at most the longest lease, with an unused
   * token; it takes the next number and stands last. Nothing else ever changes.
   */
  lemma ClaimsExactlyWhenDue(s: JobTables, p: string, c: ClaimInput)
    requires JobsSound(s)
    ensures var r := ClaimNext(s, Some(p), c);
            && (r.Ok? && r.value.lease.Some? <==>
                  && c.claimedAt < c.expiresAt <= c.claimedAt + MAX_LEASE && c.token !in s.tokens
                  && HasMeltEffect(s.tables, p) && p in s.jobs && Due(s, p, c.claimedAt)
                  && |s.jobs[p].attempts| < MAX_LEASE_NUMBER)
            && (r.Ok? && r.value.lease.Some? ==>
                  var lease := Lease(c.token, |s.jobs[p].attempts| + 1, c.workerId, c.claimedAt, c.expiresAt);
                  && r.value.lease == Some(lease)
                  && r.value.store == s.(jobs := s.jobs[p := s.jobs[p].(attempts := s.jobs[p].attempts + [LeaseRow(lease, None)])],
                                         tokens := s.tokens + {c.token}))
            && (r.Ok? && r.value.lease.None? ==> r.value.store == s)
  {
    hide JobsSound, LeaseRowsReadable, LeaseReadable;
    if p in s.jobs {
      JobOf(s, p);
      NumberedByPosition(s.jobs[p]) by { hide *; JobIsReadable(s.tables.payments[p], s.jobs[p], s.tokens); }
    }
  }

  lemma JobIsReadable(row: PaymentRow, job: Job, tokens: set<string>)
    requires JobSound(row, job, tokens)
    ensures LeaseRowsReadable(job.initialAttemptAt, job.attempts)
  {
  }

  lemma NumberedByPosition(job: Job)
    requires LeaseRowsReadable(job.initialAttemptAt, job.attempts)
    ensures NextNumber(job) == |job.attempts| + 1
  {
    if job.attempts != [] { assert LeaseRowReadable(job.initialAttemptAt, job.attempts, |job.attempts| - 1); }
  }

  // --------------------------------------------------------------- recording

  /** The payment is in the state the outcome speaks of: settled that way, or still in doubt. */
  predicate Fits(row: PaymentRow, o: LeaseOutcome) {
    if o.AcceptedOutcome? then Current(row).Consumed?
    else if o.ReleasedOutcome? then Current(row).Released?
    else Active(row)
  }

  /** The job with its newest lease answered. */
  predicate Answered(s: JobTables, p: string, o: LeaseOutcome, u: JobTables)
    requires p in s.jobs && s.jobs[p].attempts != []
  {
    var attempts := s.jobs[p].attempts;
    u == s.(jobs := s.jobs[p := s.jobs[p].(attempts := attempts[..|attempts| - 1] + [Last(attempts).(outcome := Some(o))])])
  }

  /**
   * An outcome is recorded exactly under the token of the newest lease: again when it is the one stored, or first,
   * within the lease and in the state of the payment it speaks of. The job always reads back.
   */
  lemma RecordsExactlyWhenLeased(s: JobTables, p: string, token: string, o: LeaseOutcome)
    requires JobsSound(s)
    ensures var r := RecordOutcome(s, p, token, o);
            && (r.Ok? <==>
                  && p in s.jobs && s.jobs[p].attempts != [] && Last(s.jobs[p].attempts).lease.token == token
                  && (o.RetryScheduled? ==> o.recordedAt < o.nextAttemptAt)
                  && var latest := Last(s.jobs[p].attempts);
                     if latest.outcome.Some? then latest.outcome == Some(o)
                     else
                       && latest.lease.claimedAt <= o.recordedAt <= latest.lease.expiresAt
                       && p in s.tables.payments && Fits(s.tables.payments[p], o))
            && (r.Ok? && r.value.replayed ==> r.value.store == s && Last(s.jobs[p].attempts).outcome.Some?)
            && (r.Ok? && !r.value.replayed ==> Last(s.jobs[p].attempts).outcome.None? && Answered(s, p, o, r.value.store))
  {
    hide JobsSound, MapJob, JobSound;
    if p in s.jobs && s.jobs[p].attempts != [] {
      JobReadsBack(s, p);
      if Last(s.jobs[p].attempts).outcome.None? {
        JobOf(s, p);
        AnswerStands(s, p, o);
        if Fits(s.tables.payments[p], o) && (o.RetryScheduled? ==> o.recordedAt < o.nextAttemptAt)
           && Last(s.jobs[p].attempts).lease.claimedAt <= o.recordedAt <= Last(s.jobs[p].attempts).lease.expiresAt {
          AnsweredReadsBack(s, p, o);
        }
      }
    }
  }

  lemma AnswerStands(s: JobTables, p: string, o: LeaseOutcome)
    requires p in s.jobs && s.jobs[p].attempts != []
    ensures Answered(s, p, o, WithOutcome(s, p, o))
  {
    var attempts := s.jobs[p].attempts;
    var last := |attempts| - 1;
    assert attempts[last := attempts[last].(outcome := Some(o))] == attempts[..last] + [attempts[last].(outcome := Some(o))];
  }

  lemma JobReadsBack(s: JobTables, p: string)
    requires JobsSound(s) && p in s.jobs
    ensures MapJob(s, p).Some? && p in s.tables.payments
  {
    hide JobsSound, MapJob, JobSound;
    JobOf(s, p);
    JobsSoundTables(s);
    SoundJobIsReadable(s, p);
  }

  lemma AnsweredReadsBack(s: JobTables, p: string, o: LeaseOutcome)
    requires JobsSound(s) && p in s.jobs && p in s.tables.payments && s.jobs[p].attempts != []
    requires Last(s.jobs[p].attempts).outcome.None? && OutcomeFits(s.tables.payments[p], o)
    requires Last(s.jobs[p].attempts).lease.claimedAt <= o.recordedAt <= Last(s.jobs[p].attempts).lease.expiresAt
    requires o.RetryScheduled? ==> o.recordedAt < o.nextAttemptAt
    ensures p in WithOutcome(s, p, o).jobs && MapJob(WithOutcome(s, p, o), p).Some?
  {
    hide JobsSound, MapJob, JobSound, OutcomeFits;
    JobOf(s, p);
    JobsSoundTables(s);
    OutcomeKeepsJob(s.tables.payments[p], s.jobs[p], s.tokens, o);
    SoundJobIsReadable(WithOutcome(s, p, o), p);
  }

  // ------------------------------------------------------------- reading a job

  /**
   * The view of a job is the payment's own end once it has one; before that it is when the next attempt is due, who
   * holds the lease, or why the job was halted.
   */
  lemma ViewIsWhatHappened(s: JobTables, p: string)
    requires JobsSound(s) && p in s.jobs
    ensures p in s.tables.payments && HasMeltEffect(s.tables, p)
    ensures var row, attempts := s.tables.payments[p], s.jobs[p].attempts;
            MapJob(s, p)
            == if Current(row).Consumed? then Some(Completed(true))
               else if Current(row).Released? then Some(Completed(false))
               else if attempts == [] then
                 Some(Scheduled(if row.effect.value.startedAt + 60 <= Ledger.MAX_SAFE_INTEGER then row.effect.value.startedAt + 60
                                else Ledger.MAX_SAFE_INTEGER))
               else match Last(attempts).outcome
                 case None => Some(Leased(Last(attempts).lease))
                 case Some(RetryScheduled(_, _, next)) => Some(Scheduled(next))
                 case Some(o) => Some(Halted(o))
  {
    hide JobsSound, LeaseRowsReadable;
    JobReadsBack(s, p);
    JobOf(s, p);
  }
}
