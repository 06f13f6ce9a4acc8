/**
 * The melt-quote repository in its own imperative form
 * (postgres-cashu-stellar-melt-quote-repository.ts): attempts, outcomes and
 * observations are appended under the reservation lock.
 */
module QuoteRepositories {
  import opened Outcomes
  import opened MeltRecords
  import opened MeltStore
  import opened AcquirerDatabase
  import LifecycleRepositories

  class QuoteRepository {
    const db: Database

    constructor (database: Database)
      ensures db == database
    {
      db := database;
    }

    /** mapAttempt on the payment's stored attempt. */
    method MapAttempt(p: string, replayed: bool) returns (r: Result<bool, StoreError>)
      requires p in db.payments && db.payments[p].attempt.Some?
      ensures r == if AttemptReadable(db.payments[p]) then Ok(replayed) else Err(InvalidRecord)
    {
      hide SightingsReadable;
      var row := db.payments[p];
      if row.outcome.None? {
        return if row.sightings == [] then Ok(replayed) else Err(InvalidRecord);
      }
      if row.outcome.value.Ambiguous? {
        return if row.sightings == [] && row.attempt.value.startedAt <= row.outcome.value.recordedAt
               then Ok(replayed) else Err(InvalidRecord);
      }
      var found := LifecycleRepositories.LoadMeltQuotedEvidence(row);
      return if found then Ok(replayed) else Err(InvalidRecord);
    }

    method FindAttempt(p: string, attemptId: string) returns (r: Result<Attempt, StoreError>)
      ensures r == MeltStore.LockAttempt(db.Contents(), p, attemptId)
    {
      if p !in db.payments {
        return Err(ReservationNotFound);
      }
      var row := db.payments[p];
      if row.attempt.None? {
        return Err(if AttemptKey(attemptId) in db.keys then AttemptConflict else AttemptNotFound);
      }
      if row.attempt.value.attemptId != attemptId {
        return Err(AttemptConflict);
      }
      return Ok(row.attempt.value);
    }

    method InsertObservation(p: string, observation: Sighting)
      requires p in db.payments
      modifies db
      ensures var t := old(db.Contents());
              db.Contents() == WithRow(t, p, t.payments[p].(sightings := t.payments[p].sightings + [observation]))
    {
      var row := db.payments[p];
      db.payments := db.payments[p := row.(sightings := row.sightings + [observation])];
    }

    method BeginInTransaction(p: string, attempt: Attempt) returns (r: Result<bool, StoreError>)
      modifies db
      ensures Performs(BeginQuote(old(db.Contents()), p, attempt), db.Contents(), r)
    {
      hide AttemptReadable;
      if p !in db.payments || db.payments[p].reservation.invoiceId !in db.invoices
         || RouteOf(db.Contents(), db.payments[p]).None? {
        return Err(ReservationNotFound);
      }
      var row := db.payments[p];
      var key := AttemptKey(attempt.attemptId);
      if row.attempt.Some? || key in db.keys {
        if row.attempt != Some(attempt) || key !in db.keys || db.keys[key] != p {
          return Err(AttemptConflict);
        }
        r := MapAttempt(p, true);
        return;
      }
      var invoice, route := InvoiceOf(db.Contents(), row), RouteOf(db.Contents(), row).value;
      if row.custodyAt.None? {
        return Err(CustodyNotFound);
      }
      if row.reservation.unit != STELLAR_UNIT || db.invoices[row.reservation.invoiceId].unit != STELLAR_UNIT {
        return Err(InvalidRecord);
      }
      if !route.mode.ImmediateConversion? || route.destination != attempt.request.destination
         || invoice.amount != attempt.request.amount {
        return Err(TermsMismatch);
      }
      if invoice.paidAt.Some? || attempt.startedAt < row.reservation.reservedAt || attempt.startedAt < row.custodyAt.value
         || attempt.startedAt < invoice.createdAt || invoice.expiresAt <= attempt.startedAt {
        return Err(WindowClosed);
      }
      if row.reservation.proofs == [] || |ProofClaimsOf(db.Contents(), p)| != |row.reservation.proofs|
         || row.effect.Some? || row.events != [] {
        return Err(ReservationNotActive);
      }
      db.payments := db.payments[p := row.(attempt := Some(attempt))];
      db.keys := db.keys[key := p];
      r := MapAttempt(p, false);
    }

    /** begin. */
    method Begin(p: string, attempt: Attempt) returns (r: Result<bool, StoreError>)
      modifies db
      ensures Commits(old(db.Contents()), BeginQuote(old(db.Contents()), p, attempt), db.Contents(), r)
    {
      hide BeginQuote;
      var begun := db.Contents();
      r := BeginInTransaction(p, attempt);
      if r.Err? {
        db.Restore(begun);
      }
    }

    method RecordAmbiguousInTransaction(p: string, attemptId: string, reason: string, recordedAt: nat)
      returns (r: Result<bool, StoreError>)
      modifies db
      ensures Performs(MeltStore.RecordAmbiguous(old(db.Contents()), p, attemptId, reason, recordedAt), db.Contents(), r)
    {
      hide AttemptReadable;
      var found := FindAttempt(p, attemptId);
      if found.Err? {
        return Err(found.error);
      }
      if recordedAt < found.value.startedAt {
        return Err(InvalidInput);
      }
      var row := db.payments[p];
      if row.outcome.Some? {
        if row.outcome.value.Quoted? {
          return Err(InvalidTransition);
        }
        if row.outcome.value != Ambiguous(reason, recordedAt) {
          return Err(QuoteConflict);
        }
        r := MapAttempt(p, true);
        return;
      }
      if row.custodyAt.None? || row.effect.Some? || row.events != [] {
        return Err(InvalidTransition);
      }
      db.payments := db.payments[p := row.(outcome := Some(Ambiguous(reason, recordedAt)))];
      r := MapAttempt(p, false);
    }

    /** recordAmbiguous. */
    method RecordAmbiguous(p: string, attemptId: string, reason: string, recordedAt: nat)
      returns (r: Result<bool, StoreError>)
      modifies db
      ensures Commits(old(db.Contents()), MeltStore.RecordAmbiguous(old(db.Contents()), p, attemptId, reason, recordedAt),
                      db.Contents(), r)
    {
      hide MeltStore.RecordAmbiguous;
      var begun := db.Contents();
      r := RecordAmbiguousInTransaction(p, attemptId, reason, recordedAt);
      if r.Err? {
        db.Restore(begun);
      }
    }

    method RecordQuoteInTransaction(p: string, attemptId: string, quote: Quote) returns (r: Result<bool, StoreError>)
      modifies db
      ensures Performs(MeltStore.RecordQuote(old(db.Contents()), p, attemptId, quote), db.Contents(), r)
    {
      hide AttemptReadable;
      var found := FindAttempt(p, attemptId);
      if found.Err? {
        return Err(found.error);
      }
      var attempt, row := found.value, db.payments[p];
      var first := Sighting(quote.observedAt, quote.state);
      if !MatchesAttempt(row, attempt, quote.terms) {
        return Err(TermsMismatch);
      }
      if !quote.state.Unpaid? || quote.observedAt < attempt.startedAt || quote.terms.expiry <= quote.observedAt
         || attempt.startedAt + MAX_QUOTE_TTL < quote.terms.expiry {
        return Err(InvalidInput);
      }
      if row.outcome.Some? {
        if row.outcome.value.Ambiguous? {
          return Err(InvalidTransition);
        }
        if row.outcome.value != Quoted(quote.terms, quote.observedAt) || first !in row.sightings {
          return Err(QuoteConflict);
        }
        r := MapAttempt(p, true);
        return;
      }
      if row.custodyAt.None? || row.effect.Some? || row.events != [] {
        return Err(InvalidTransition);
      }
      if QuoteKey(quote.terms.mintUrl, quote.terms.quoteId) in db.keys {
        return Err(StorageConflict);
      }
      db.payments := db.payments[p := row.(outcome := Some(Quoted(quote.terms, quote.observedAt)))];
      db.keys := db.keys[QuoteKey(quote.terms.mintUrl, quote.terms.quoteId) := p];
      InsertObservation(p, first);
      ghost var stored := row.(outcome := Some(Quoted(quote.terms, quote.observedAt)), sightings := row.sightings + [first]);
      assert db.payments == old(db.payments)[p := stored];
      r := MapAttempt(p, false);
    }

    /** recordQuote. */
    method RecordQuote(p: string, attemptId: string, quote: Quote) returns (r: Result<bool, StoreError>)
      modifies db
      ensures Commits(old(db.Contents()), MeltStore.RecordQuote(old(db.Contents()), p, attemptId, quote), db.Contents(), r)
    {
      hide MeltStore.RecordQuote;
      var begun := db.Contents();
      r := RecordQuoteInTransaction(p, attemptId, quote);
      if r.Err? {
        db.Restore(begun);
      }
    }

    method ObserveInTransaction(p: string, attemptId: string, quote: Quote) returns (r: Result<bool, StoreError>)
      modifies db
      ensures Performs(ObserveQuote(old(db.Contents()), p, attemptId, quote), db.Contents(), r)
    {
      hide AttemptReadable;
      var found := FindAttempt(p, attemptId);
      if found.Err? {
        return Err(found.error);
      }
      var attempt, row := found.value, db.payments[p];
      if row.outcome.None? || row.outcome.value.Ambiguous? {
        return Err(InvalidTransition);
      }
      if !MatchesAttempt(row, attempt, quote.terms) || row.outcome.value.terms != quote.terms {
        return Err(TermsMismatch);
      }
      var seen := Sighting(quote.observedAt, quote.state);
      if exists k :: 0 <= k < |row.sightings| && row.sightings[k].observedAt == quote.observedAt {
        if seen !in row.sightings {
          return Err(ObservationConflict);
        }
        r := MapAttempt(p, true);
        return;
      }
      if row.events != [] && (Last(row.events).state.Consumed? || Last(row.events).state.Released?) {
        return Err(InvalidTransition);
      }
      if row.sightings == [] || quote.observedAt <= Last(row.sightings).observedAt
         || (Last(row.sightings).state.Paid? && !quote.state.Paid?) {
        return Err(InvalidTransition);
      }
      InsertObservation(p, seen);
      r := MapAttempt(p, false);
    }

    /** observe. */
    method Observe(p: string, attemptId: string, quote: Quote) returns (r: Result<bool, StoreError>)
      modifies db
      ensures Commits(old(db.Contents()), ObserveQuote(old(db.Contents()), p, attemptId, quote), db.Contents(), r)
    {
      hide ObserveQuote;
      var begun := db.Contents();
      r := ObserveInTransaction(p, attemptId, quote);
      if r.Err? {
        db.Restore(begun);
      }
    }
  }
}
