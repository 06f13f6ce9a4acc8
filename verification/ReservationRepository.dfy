/**
 * The reservation and proof-state repositories in their own imperative form
 * (postgres-cashu-proof-reservation-repository.ts,
 * postgres-cashu-proof-state-repository.ts).
 */
module ReservationRepositories {
  import opened Outcomes
  import opened MeltRecords
  import opened MeltStore
  import opened AcquirerDatabase
  import MeltCalls
  import ProofHistory
  import Ledger

  lemma {:induction false} GrossOfPrefix(proofs: seq<Proof>, n: nat)
    requires n <= |proofs|
    ensures Gross(proofs[..n]) <= Gross(proofs)
  {
    if n < |proofs| {
      GrossOfPrefix(proofs[..|proofs| - 1], n);
      assert proofs[..|proofs| - 1][..n] == proofs[..n];
    } else {
      assert proofs[..n] == proofs;
    }
  }

  /** createReservation: one pass over the proofs with a running sum and the ys seen so far. */
  method CreateReservation(input: Reservation) returns (r: Option<Reservation>)
    ensures r == NormalReservation(input)
  {
    var proofs := input.proofs;
    if proofs == [] || |proofs| > MAX_PAYMENT_PROOFS {
      return None;
    }
    var proofYs: set<nat> := {};
    var grossAmount: nat := 0;
    for i := 0 to |proofs|
      invariant proofYs == set k | 0 <= k < i :: proofs[k].y
      invariant DistinctYs(proofs[..i])
      invariant grossAmount == Gross(proofs[..i])
      invariant grossAmount <= Ledger.MAX_SAFE_INTEGER
    {
      if proofs[i].y in proofYs {
        assert !DistinctYs(proofs);
        return None;
      }
      assert proofs[..i + 1][..i] == proofs[..i];
      proofYs := proofYs + {proofs[i].y};
      grossAmount := grossAmount + proofs[i].amount;
      if grossAmount > Ledger.MAX_SAFE_INTEGER {
        GrossOfPrefix(proofs, i + 1);
        return None;
      }
    }
    assert proofs[..|proofs|] == proofs;
    if input.keysetObservedAt > input.reservedAt {
      return None;
    }
    return Some(input.(proofs := SortByY(proofs)));
  }

  /** The claims of the first `n` proofs. */
  function FirstClaims(row: PaymentRow, n: nat): set<(string, nat)>
    requires n <= |row.reservation.proofs|
  {
    set i | 0 <= i < n :: (row.reservation.mintUrl, row.reservation.proofs[i].y)
  }

  function ClaimedBy(claims: set<(string, nat)>, p: string): map<(string, nat), string> {
    map k | k in claims :: p
  }

  lemma NextClaim(row: PaymentRow, n: nat)
    requires n < |row.reservation.proofs| && DistinctYs(row.reservation.proofs)
    ensures var claim := (row.reservation.mintUrl, row.reservation.proofs[n].y);
            claim !in FirstClaims(row, n) && claim in ClaimKeys(row) && FirstClaims(row, n + 1) == FirstClaims(row, n) + {claim}
  {
  }

  lemma NoClaims(row: PaymentRow)
    ensures FirstClaims(row, 0) == {}
  {
  }

  lemma AllClaims(row: PaymentRow)
    ensures FirstClaims(row, |row.reservation.proofs|) == ClaimKeys(row)
  {
  }

  lemma ClaimOne(before: map<(string, nat), string>, claims: set<(string, nat)>, claim: (string, nat), p: string)
    ensures (before + ClaimedBy(claims, p))[claim := p] == before + ClaimedBy(claims + {claim}, p)
  {
  }

  class ReservationRepository {
    const db: Database

    constructor (database: Database)
      ensures db == database
    {
      db := database;
    }

    /** Reserved proofs are inserted one by one, each claiming its y until one is already claimed. */
    method ClaimProofs(p: string, row: PaymentRow) returns (ok: bool)
      requires DistinctYs(row.reservation.proofs)
      modifies db`proofClaims
      ensures ok <==> !(exists k :: k in ClaimKeys(row) && k in old(db.proofClaims))
      ensures ok ==> db.proofClaims == old(db.proofClaims) + (map k | k in ClaimKeys(row) :: p)
    {
      hide FirstClaims, ClaimKeys, DistinctYs;
      var proofs := row.reservation.proofs;
      NoClaims(row);
      for position := 0 to |proofs|
        invariant db.proofClaims == old(db.proofClaims) + ClaimedBy(FirstClaims(row, position), p)
        invariant FirstClaims(row, position) !! old(db.proofClaims).Keys
      {
        var claim := (row.reservation.mintUrl, proofs[position].y);
        NextClaim(row, position);
        if claim in db.proofClaims {
          return false;
        }
        ClaimOne(old(db.proofClaims), FirstClaims(row, position), claim, p);
        db.proofClaims := db.proofClaims[claim := p];
      }
      AllClaims(row);
      return true;
    }

    method ReserveInTransaction(p: string, requested: Reservation, keysetsObserved: bool) returns (r: Result<bool, StoreError>)
      modifies db
      ensures Performs(MeltStore.Reserve(old(db.Contents()), p, requested, keysetsObserved), db.Contents(), r)
    {
      hide NormalReservation, ClaimKeys;
      var created := CreateReservation(requested);
      if created.None? {
        return Err(InvalidInput);
      }
      var reservation := created.value;
      if p in db.payments {
        r := ReplayReservation(p, reservation);
        return;
      }
      var blank := PaymentRow(reservation, None, None, None, [], map[], None, []);
      if reservation.invoiceId !in db.invoices || db.invoices[reservation.invoiceId].invoice.paidAt.Some? {
        return Err(InvoiceNotOpen);
      }
      var invoice := db.invoices[reservation.invoiceId];
      if invoice.unit != reservation.unit {
        return Err(InvalidInput);
      }
      if reservation.reservedAt < invoice.invoice.createdAt || invoice.invoice.expiresAt <= reservation.reservedAt {
        return Err(WindowClosed);
      }
      if RouteOf(db.Contents(), blank).None? {
        return Err(RouteNotAccepted);
      }
      if !keysetsObserved {
        return Err(KeysetEvidenceMissing);
      }
      db.payments := db.payments[p := blank];
      CreatedIsDistinct(requested);
      var claimed := ClaimProofs(p, blank);
      if !claimed {
        return Err(ProofConflict);
      }
      return Ok(false);
    }

    static lemma CreatedIsDistinct(input: Reservation)
      requires NormalReservation(input).Some?
      ensures DistinctYs(NormalReservation(input).value.proofs)
    {
      MeltCalls.ReservationIsSorted(input.proofs);
    }

    /** replayReservation. */
    method ReplayReservation(p: string, reservation: Reservation) returns (r: Result<bool, StoreError>)
      requires p in db.payments
      ensures var row := db.payments[p];
              r == (if row.reservation != reservation then Err(PaymentConflict)
                    else if Current(row).Released? then Err(ReservationReleased)
                    else if |ProofClaimsOf(db.Contents(), p)| != |reservation.proofs| then Err(InvalidRecord)
                    else Ok(true))
    {
      var row := db.payments[p];
      if row.reservation != reservation {
        return Err(PaymentConflict);
      }
      if row.events != [] && Last(row.events).state.Released? {
        return Err(ReservationReleased);
      }
      if |ProofClaimsOf(db.Contents(), p)| != |reservation.proofs| {
        return Err(InvalidRecord);
      }
      return Ok(true);
    }

    /** reserve. */
    method Reserve(p: string, requested: Reservation, keysetsObserved: bool) returns (r: Result<bool, StoreError>)
      modifies db
      ensures Commits(old(db.Contents()), MeltStore.Reserve(old(db.Contents()), p, requested, keysetsObserved), db.Contents(), r)
    {
      hide MeltStore.Reserve;
      var begun := db.Contents();
      r := ReserveInTransaction(p, requested, keysetsObserved);
      if r.Err? {
        db.Restore(begun);
      }
    }
  }

  class ProofStateRepository {
    const db: Database

    constructor (database: Database)
      ensures db == database
    {
      db := database;
    }

    method PersistInTransaction(p: string, report: ProofReport) returns (r: Result<bool, StoreError>)
      modifies db
      ensures Performs(ObserveProofs(old(db.Contents()), p, report), db.Contents(), r)
    {
      hide ProofHistory.HasRegression, ProofHistory.HasPriorSpent, ProofHistory.HasLaterNonSpent;
      if p !in db.payments {
        return Err(ReservationNotFound);
      }
      var row, o := db.payments[p], report.observation;
      if report.operatorId != row.reservation.operatorId || report.mintUrl != row.reservation.mintUrl
         || report.unit != row.reservation.unit || o.observedAt < row.reservation.reservedAt
         || report.ys != Ys(row.reservation.proofs) || |o.states| != |report.ys| {
        return Err(ScopeMismatch);
      }
      if ProofHistory.HasRegression(row.snapshots) {
        return Err(ProofStateRefused(ProofHistory.InvalidRecord));
      }
      if o.observedAt in row.snapshots {
        if row.snapshots[o.observedAt] != o.states {
          return Err(ProofStateRefused(ProofHistory.ObservationConflict));
        }
        assert row.(snapshots := row.snapshots) == row && db.payments[p := row] == db.payments;
        return Ok(true);
      }
      if row.events != [] && (Last(row.events).state.Consumed? || Last(row.events).state.Released?) {
        return Err(ProofStateRefused(ProofHistory.ReservationTerminal));
      }
      if ProofHistory.HasPriorSpent(row.snapshots, o) || ProofHistory.HasLaterNonSpent(row.snapshots, o) {
        return Err(ProofStateRefused(ProofHistory.SpentStateRegression));
      }
      db.payments := db.payments[p := row.(snapshots := row.snapshots[o.observedAt := []])];
      for position := 0 to |o.states|
        invariant p in db.payments
        invariant db.Contents() == WithRow(old(db.Contents()), p, row.(snapshots := row.snapshots[o.observedAt := o.states[..position]]))
      {
        var stored := db.payments[p].snapshots;
        var entries := stored[o.observedAt] + [o.states[position]];
        assert entries == o.states[..position + 1];
        assert stored[o.observedAt := entries] == row.snapshots[o.observedAt := entries];
        db.payments := db.payments[p := db.payments[p].(snapshots := stored[o.observedAt := entries])];
      }
      assert o.states[..|o.states|] == o.states;
      return Ok(false);
    }

    /** persistObservation. */
    method PersistObservation(p: string, report: ProofReport) returns (r: Result<bool, StoreError>)
      modifies db
      ensures Commits(old(db.Contents()), ObserveProofs(old(db.Contents()), p, report), db.Contents(), r)
    {
      hide ObserveProofs;
      var begun := db.Contents();
      r := PersistInTransaction(p, report);
      if r.Err? {
        db.Restore(begun);
      }
    }
  }
}
