/**
 * The processor's own methods on the shared store (processor.rs), run without
 * interruption: one payout drive, one reconciliation, one deposit scan. Each is
 * proved to be a sequence of the atomic steps that the payout and scanning
 * systems interleave, so their results hold of it in any company.
 */
module Processors {
  import opened Outcomes
  import opened Settlements
  import opened StateStores
  import opened Payouts
  import opened SoloDrives
  import opened PayoutResults
  import DepositScan

  // --------------------------------------------------------- one scan on its own

  /** The store calls of one scan: every payment of the page in order, then the page cursor; any error ends it. */
  ghost function Scanned(s: Store, profile: Profile, payments: seq<Payment>, cursor: Option<nat>, persists: seq<Persist>)
    : (Store, bool)
    requires |persists| > |payments|
    decreases |payments|
  {
    if payments == [] then
      if cursor.None? then (s, true)
      else
        var (after, result) := Commit(s, Advance(cursor.value), persists[0]);
        (after, result.Ok?)
    else
      var (after, result) := Commit(s, Observe(profile, payments[0]), persists[0]);
      if result.Err? then (after, false) else Scanned(after, profile, payments[1..], cursor, persists[1..])
  }

  /** The payments observed one after another, each on what the one before left. */
  ghost function ObservedAll(j: Journal, profile: Profile, payments: seq<Payment>): Journal {
    if payments == [] then j
    else ObserveStep(ObservedAll(j, profile, payments[..|payments| - 1]), profile, payments[|payments| - 1]).0
  }

  lemma {:induction false} ObservedFirst(j: Journal, profile: Profile, payments: seq<Payment>)
    requires payments != []
    ensures ObservedAll(j, profile, payments)
            == ObservedAll(ObserveStep(j, profile, payments[0]).0, profile, payments[1..])
  {
    hide ObserveStep;
    if |payments| > 1 {
      var front := payments[..|payments| - 1];
      ObservedFirst(j, profile, front);
      assert front[1..] == payments[1..][..|payments| - 2];
    }
  }

  predicate AllPersisted(persists: seq<Persist>) {
    forall i :: 0 <= i < |persists| ==> persists[i].Persisted?
  }

  /**
   * A scan whose writes all succeed observes every payment of its page and ends with the cursor at or beyond the
   * page's: nothing of the page is left for a later scan.
   */
  lemma {:induction false} CompleteScanCoversItsPage(s: Store, profile: Profile, payments: seq<Payment>, cursor: Option<nat>,
                                                     persists: seq<Persist>)
    requires |persists| > |payments| && AllPersisted(persists)
    ensures var (u, ok) := Scanned(s, profile, payments, cursor, persists);
            var observed := ObservedAll(s.mem, profile, payments);
            && ok
            && u.mem.(cursor := observed.cursor) == observed
            && u.mem.cursor == (if cursor.None? || (observed.cursor.Some? && cursor.value <= observed.cursor.value) then observed.cursor
                                else cursor)
            && (payments != [] || cursor.Some? ==> u.disk == u.mem)
    decreases |payments|
  {
    hide ObserveStep;
    if payments != [] {
      var after := Commit(s, Observe(profile, payments[0]), persists[0]).0;
      CompleteScanCoversItsPage(after, profile, payments[1..], cursor, persists[1..]);
      ObservedFirst(s.mem, profile, payments);
    }
  }

  /** The direct asset payments among ledger records. */
  function PaymentsIn(entries: seq<DepositScan.Entry>): seq<Payment> {
    if entries == [] then []
    else (if entries[0].payment.Some? then [entries[0].payment.value] else []) + PaymentsIn(entries[1..])
  }

  /** Deliver steps of one scanner until it is done. */
  ghost function Delivered(s: DepositScan.System, profile: Profile, id: nat, persists: seq<Persist>): DepositScan.System
    requires id in s.scanners && s.scanners[id].Delivering? && s.scanners[id].next <= s.scanners[id].stop <= |s.log|
    requires |persists| > |PaymentsIn(s.log[s.scanners[id].next..s.scanners[id].stop])|
    decreases s.scanners[id].stop - s.scanners[id].next
  {
    var next, stop := s.scanners[id].next, s.scanners[id].stop;
    var t := DepositScan.DeliverNext(s, profile, id, persists[0]);
    if next == stop || id !in t.scanners then t
    else
      assert s.log[next..stop][1..] == s.log[next + 1..stop];
      Delivered(t, profile, id, if s.log[next].payment.Some? then persists[1..] else persists)
  }

  /** What delivering one record of the page does. */
  lemma DeliverNextStep(s: DepositScan.System, profile: Profile, id: nat, p: Persist)
    requires id in s.scanners && s.scanners[id].Delivering? && s.scanners[id].next < s.scanners[id].stop <= |s.log|
    ensures var next := s.scanners[id].next;
            var moved := s.scanners[id].(next := next + 1);
            var t := DepositScan.DeliverNext(s, profile, id, p);
            && t.log == s.log
            && if s.log[next].payment.None? then
                 t.store == s.store && id in t.scanners && t.scanners[id] == moved
               else
                 var (after, result) := Commit(s.store, Observe(profile, s.log[next].payment.value), p);
                 && t.store == after
                 && if result.Ok? then id in t.scanners && t.scanners[id] == moved
                    else id !in t.scanners
  {
    hide Commit;
  }

  /** A scan on its own is a sequence of Deliver steps in the interleaved system. */
  lemma {:induction false} ScanIsDelivery(s: DepositScan.System, profile: Profile, id: nat, persists: seq<Persist>)
    requires id in s.scanners && s.scanners[id].Delivering?
    requires s.scanners[id].start <= s.scanners[id].next <= s.scanners[id].stop <= |s.log|
    requires |persists| > |PaymentsIn(s.log[s.scanners[id].next..s.scanners[id].stop])|
    ensures var scanner := s.scanners[id];
            Delivered(s, profile, id, persists).store
            == Scanned(s.store, profile, PaymentsIn(s.log[scanner.next..scanner.stop]),
                       if scanner.start < scanner.stop then Some(s.log[scanner.stop - 1].cursor) else None, persists).0
    decreases s.scanners[id].stop - s.scanners[id].next
  {
    hide Commit;
    var start, next, stop := s.scanners[id].start, s.scanners[id].next, s.scanners[id].stop;
    var cursor := if start < stop then Some(s.log[stop - 1].cursor) else None;
    if next < stop {
      hide DepositScan.DeliverNext;
      var t := DepositScan.DeliverNext(s, profile, id, persists[0]);
      DeliverNextStep(s, profile, id, persists[0]);
      var payments, rest := PaymentsIn(s.log[next..stop]), PaymentsIn(s.log[next + 1..stop]);
      assert s.log[next..stop][0] == s.log[next] && s.log[next..stop][1..] == s.log[next + 1..stop];
      if s.log[next].payment.None? {
        assert payments == rest;
        ScanIsDelivery(t, profile, id, persists);
      } else {
        assert payments == [s.log[next].payment.value] + rest && payments[1..] == rest;
        var (after, result) := Commit(s.store, Observe(profile, payments[0]), persists[0]);
        if result.Ok? {
          ScanIsDelivery(t, profile, id, persists[1..]);
          assert Scanned(s.store, profile, payments, cursor, persists) == Scanned(after, profile, rest, cursor, persists[1..]);
        }
      }
    }
  }

  // ------------------------------------------------------------------ the class

  class StellarPaymentProcessor {
    const store: StateStore
    const profile: Profile

    constructor (sharedStore: StateStore, stellarProfile: Profile)
      ensures store == sharedStore && profile == stellarProfile
    {
      store, profile := sharedStore, stellarProfile;
    }

    /** scan_deposits, on the page that the deposit source returned. */
    method ScanDeposits(payments: seq<Payment>, cursor: Option<nat>, persists: seq<Persist>) returns (ok: bool)
      requires Consistent(store.state) && |persists| > |payments|
      modifies store
      ensures (store.Contents(), ok) == Scanned(old(store.Contents()), profile, payments, cursor, persists)
      ensures AllPersisted(persists) ==>
                var observed := ObservedAll(old(store.state), profile, payments);
                && ok && store.state.(cursor := observed.cursor) == observed
                && (cursor.Some? ==> IsStale(store.state, cursor.value))
    {
      hide Commit, Consistent, ObservedAll;
      if AllPersisted(persists) { CompleteScanCoversItsPage(store.Contents(), profile, payments, cursor, persists); }
      var i := 0;
      while i < |payments|
        invariant 0 <= i <= |payments| && Consistent(store.state)
        invariant Scanned(store.Contents(), profile, payments[i..], cursor, persists[i..])
                  == Scanned(old(store.Contents()), profile, payments, cursor, persists)
      {
        ghost var before := store.Contents();
        var observed := store.ObservePayment(profile, payments[i], persists[i]);
        assert payments[i..][1..] == payments[i + 1..] && persists[i..][1..] == persists[i + 1..];
        if observed.Err? {
          return false;
        }
        CommitKeepsMemory(before, Observe(profile, payments[i]), persists[i]);
        i := i + 1;
      }
      if cursor.Some? {
        var advanced := store.AdvanceCursor(cursor.value, persists[|payments|]);
        return advanced.Ok?;
      }
      return true;
    }

    static lemma CommitKeepsMemory(s: Store, u: Update, persist: Persist)
      requires Consistent(s.mem) && WellFormed(u)
      ensures Consistent(Commit(s, u, persist).0.mem)
    {
      if Apply(s.mem, u).Ok? { ApplyKeeps(s.mem, u); }
    }

    /** apply_observation, and the classification of a submission. */
    method ApplyChange(q: QuoteId, change: Change, env: Environment, ghost sent: Option<(Hash, string)>)
      modifies store
      ensures Progress(store.Contents(), Finished, sent) == Alone(Progress(old(store.Contents()), Applying(change), sent), q, env)
    {
      hide Commit;
      var updated := store.UpdateSettlement(q, change, env.onApply);
    }

    /** reconcile_settlement. */
    method ReconcileSettlement(q: QuoteId, env: Environment)
      modifies store
      ensures Progress(store.Contents(), Finished, None) == Alone(Progress(old(store.Contents()), ReconcileStart, None), q, env)
      ensures var s, u := old(store.Contents()), store.Contents();
              q in s.mem.melt && Valid(s.mem.melt[q].settlement) && s.mem.melt[q].settlement.prepared.Some? && env.onApply.Persisted? ==>
                && q in u.mem.melt && Lands(s, q, u.mem.melt[q].settlement, u)
                && CheckLeaves(s.mem.melt[q].settlement, env, u.mem.melt[q].settlement)
    {
      hide Commit, ObservationChange, Lands, CheckLeaves, Valid;
      ghost var s := store.Contents();
      if q in s.mem.melt && Valid(s.mem.melt[q].settlement) && s.mem.melt[q].settlement.prepared.Some? && env.onApply.Persisted? {
        ReconciliationIsDetermined(s, q, env);
      }
      ghost var g := Progress(store.Contents(), ReconcileStart, None);
      Unfolds(g, q, env);
      if q !in store.state.melt || store.state.melt[q].settlement.prepared.None? {
        return;
      }
      Unfolds(StepAlone(g, q, env), q, env);
      if env.observed.Some? && !env.observed.value.NotFound? {
        ApplyChange(q, ObservationChange(env.observed.value), env, None);
      }
    }

    /** dispatch_prepared: the intent is marked before the envelope goes out. */
    method DispatchPrepared(q: QuoteId, hash: Hash, envelope: string, env: Environment) returns (sent: Option<(Hash, string)>)
      modifies store
      ensures Progress(store.Contents(), Finished, sent)
              == Alone(Progress(old(store.Contents()), DriveMark(hash, envelope), None), q, env)
    {
      hide Commit, SubmitChange;
      sent := None;
      ghost var g := Progress(store.Contents(), DriveMark(hash, envelope), None);
      Unfolds(g, q, env);
      var marked := store.UpdateSettlement(q, Transition(OpRecordDispatchStarted), env.onMark);
      if marked.Err? {
        return;
      }
      Unfolds(StepAlone(g, q, env), q, env);
      sent := Some((hash, envelope));
      Unfolds(Progress(store.Contents(), DriveAwait(hash, envelope), sent), q, env);
      ApplyChange(q, SubmitChange(env.submitted, hash), env, sent);
    }

    /** prepare_settlement followed by everything after it. */
    method PrepareAndDispatch(q: QuoteId, env: Environment, prepared: bool) returns (sent: Option<(Hash, string)>)
      modifies store
      ensures Progress(store.Contents(), Finished, sent)
              == Alone(Progress(old(store.Contents()), if prepared then DriveLoad else DrivePrepare, None), q, env)
      ensures var s, u := old(store.Contents()), store.Contents();
              q in s.mem.melt && Valid(s.mem.melt[q].settlement) && AllPersist(env) && s.mem.melt[q].settlement.state.ProofsReserved?
              && (prepared <==> s.mem.melt[q].settlement.prepared.Some?) ==>
                && q in u.mem.melt && Lands(s, q, u.mem.melt[q].settlement, u)
                && DriveLeaves(s.mem.melt[q].settlement, env, u.mem.melt[q].settlement, sent)
    {
      hide Commit, ObservationChange, Lands, DriveLeaves, Valid;
      ghost var s := store.Contents();
      if q in s.mem.melt && Valid(s.mem.melt[q].settlement) && AllPersist(env) && s.mem.melt[q].settlement.state.ProofsReserved?
         && (prepared <==> s.mem.melt[q].settlement.prepared.Some?) {
        PreparationIsDetermined(s, q, prepared, env);
      }
      sent := None;
      if !prepared {
        ghost var g := Progress(store.Contents(), DrivePrepare, None);
        Unfolds(g, q, env);
        Unfolds(StepAlone(g, q, env), q, env);
        var recorded;
        if env.signed.Some? {
          recorded := store.UpdateSettlement(q, Transition(OpRecordPrepared(env.signed.value.0, env.signed.value.1)), env.onPrepare);
        } else {
          recorded := store.UpdateSettlement(q, Transition(OpRecordProvableFailure("payout preparation failed")), env.onPrepare);
        }
        if recorded.Err? {
          return;
        }
      }
      ghost var g := Progress(store.Contents(), DriveLoad, None);
      Unfolds(g, q, env);
      if q !in store.state.melt || store.state.melt[q].settlement.state.Failed? || store.state.melt[q].settlement.prepared.None? {
        return;
      }
      Unfolds(StepAlone(g, q, env), q, env);
      var payout := store.state.melt[q].settlement.prepared.value;
      if env.observed.None? {
        return;
      }
      if !env.observed.value.NotFound? {
        ApplyChange(q, ObservationChange(env.observed.value), env, None);
        return;
      }
      sent := DispatchPrepared(q, payout.hash, payout.envelope, env);
    }

    /** drive_settlement. */
    method DriveSettlement(q: QuoteId, env: Environment) returns (sent: Option<(Hash, string)>)
      modifies store
      ensures Progress(store.Contents(), Finished, sent) == Alone(Progress(old(store.Contents()), DriveStart, None), q, env)
      ensures var s, u := old(store.Contents()), store.Contents();
              q in s.mem.melt && Valid(s.mem.melt[q].settlement) && AllPersist(env) ==>
                && q in u.mem.melt && Lands(s, q, u.mem.melt[q].settlement, u)
                && DriveLeaves(s.mem.melt[q].settlement, env, u.mem.melt[q].settlement, sent)
    {
      hide Commit, Lands, DriveLeaves, Valid, CheckLeaves;
      ghost var s := store.Contents();
      if q in s.mem.melt && Valid(s.mem.melt[q].settlement) && AllPersist(env) { DriveIsDetermined(s, q, env); }
      sent := None;
      ghost var g := Progress(store.Contents(), DriveStart, None);
      Unfolds(g, q, env);
      if q !in store.state.melt {
        return;
      }
      if store.state.melt[q].settlement.state.Unpaid? {
        Unfolds(StepAlone(g, q, env), q, env);
        var reserved := store.UpdateSettlement(q, Transition(OpReserveProofs), env.onReserve);
        if reserved.Err? {
          return;
        }
        Unfolds(Progress(store.Contents(), DriveReread, None), q, env);
        if q !in store.state.melt {
          return;
        }
      }
      var settlement := store.state.melt[q].settlement;
      if settlement.state.Paid? || settlement.state.Failed? {
        return;
      }
      if settlement.state.Submitted? || settlement.state.NeedsAttention? {
        ReconcileSettlement(q, env);
        return;
      }
      sent := PrepareAndDispatch(q, env, settlement.prepared.Some?);
    }

    /** check_outgoing_payment: reads, and at most reconciles. */
    method CheckOutgoingPayment(q: QuoteId, env: Environment)
      modifies store
      ensures Progress(store.Contents(), Finished, None) == Alone(Progress(old(store.Contents()), CheckStart, None), q, env)
      ensures var s, u := old(store.Contents()), store.Contents();
              q in s.mem.melt && Valid(s.mem.melt[q].settlement) && env.onApply.Persisted? ==>
                && q in u.mem.melt && Lands(s, q, u.mem.melt[q].settlement, u)
                && var v, w := s.mem.melt[q].settlement, u.mem.melt[q].settlement;
                   if Live(v.state) && v.prepared.Some? then CheckLeaves(v, env, w) else w == v
    {
      hide Commit, Lands, CheckLeaves, Valid;
      ghost var s := store.Contents();
      if q in s.mem.melt && Valid(s.mem.melt[q].settlement) && env.onApply.Persisted? { CheckIsDetermined(s, q, env); }
      Unfolds(Progress(store.Contents(), CheckStart, None), q, env);
      if q !in store.state.melt {
        return;
      }
      var settlement := store.state.melt[q].settlement;
      if (settlement.state.ProofsReserved? || settlement.state.Submitted? || settlement.state.NeedsAttention?)
         && settlement.prepared.Some? {
        ReconcileSettlement(q, env);
      }
    }
  }
}
