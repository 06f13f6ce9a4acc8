/**
 * The proof-state history of one reservation
 * (postgres-cashu-proof-state-repository.ts): snapshots keyed by observation
 * time, in which a proof once SPENT is never later anything else.
 */
module ProofHistory {
  import opened Outcomes

  datatype ProofState = Unspent | InFlight | Spent

  /** Observation time to the states of the reserved proofs, by position. */
  type History = map<nat, seq<ProofState>>

  datatype Observation = Observation(observedAt: nat, states: seq<ProofState>)

  /** Some proof is SPENT at one time and something else at a later one. */
  predicate Contradicts(earlier: seq<ProofState>, later: seq<ProofState>) {
    exists i :: 0 <= i < |earlier| && i < |later| && earlier[i] == Spent && later[i] != Spent
  }

  /** The regression that assertStoredHistory looks for. */
  predicate HasRegression(h: History) {
    exists a, b :: a in h && b in h && a < b && Contradicts(h[a], h[b])
  }

  predicate HasPriorSpent(h: History, o: Observation) {
    exists a :: a in h && a < o.observedAt && Contradicts(h[a], o.states)
  }

  predicate HasLaterNonSpent(h: History, o: Observation) {
    exists b :: b in h && o.observedAt < b && Contradicts(o.states, h[b])
  }

  datatype PersistError = InvalidRecord | ObservationConflict | ReservationTerminal | SpentStateRegression

  datatype Persisted = Persisted(history: History, replayed: bool)

  /** persistObservation, once the observation is bound to its reservation. */
  function Persist(h: History, o: Observation, terminal: bool): Result<Persisted, PersistError> {
    if HasRegression(h) then Err(InvalidRecord)
    else if o.observedAt in h then
      if h[o.observedAt] == o.states then Ok(Persisted(h, true)) else Err(ObservationConflict)
    else if terminal then Err(ReservationTerminal)
    else if HasPriorSpent(h, o) || HasLaterNonSpent(h, o) then Err(SpentStateRegression)
    else Ok(Persisted(h[o.observedAt := o.states], false))
  }

  /** The guard is exact: an insertion at any time, late or early, is refused iff it would regress. */
  lemma GuardIsExact(h: History, o: Observation)
    requires !HasRegression(h) && o.observedAt !in h
    ensures HasRegression(h[o.observedAt := o.states]) <==> HasPriorSpent(h, o) || HasLaterNonSpent(h, o)
  {
    var after := h[o.observedAt := o.states];
    if HasPriorSpent(h, o) {
      var a :| a in h && a < o.observedAt && Contradicts(h[a], o.states);
      assert a in after && Contradicts(after[a], after[o.observedAt]);
    }
    if HasLaterNonSpent(h, o) {
      var b :| b in h && o.observedAt < b && Contradicts(o.states, h[b]);
      assert b in after && Contradicts(after[o.observedAt], after[b]);
    }
    if HasRegression(after) {
      var a, b :| a in after && b in after && a < b && Contradicts(after[a], after[b]);
      assert a != o.observedAt ==> a in h && after[a] == h[a];
      assert b != o.observedAt ==> b in h && after[b] == h[b];
    }
  }

  /** So the stored-history check never fires on a history built by this repository. */
  lemma PersistKeepsHistory(h: History, o: Observation, terminal: bool)
    requires !HasRegression(h) && Persist(h, o, terminal).Ok?
    ensures !HasRegression(Persist(h, o, terminal).value.history)
  {
    if o.observedAt !in h { GuardIsExact(h, o); }
  }

  // ------------------------------------------------- families of observations

  /** Deliver observations one after another, stopping at the first refusal. */
  ghost function Deliver(h: History, os: seq<Observation>): Option<History>
    decreases |os|
  {
    if os == [] then Some(h)
    else match Persist(h, os[0], false)
      case Err(_) => None
      case Ok(p) => Deliver(p.history, os[1..])
  }

  predicate DistinctTimes(os: seq<Observation>) {
    forall i, k :: 0 <= i < k < |os| ==> os[i].observedAt != os[k].observedAt
  }

  /** The earlier of two observations leaves every proof it saw SPENT as SPENT in the later one. */
  predicate Compatible(a: Observation, b: Observation) {
    if a.observedAt < b.observedAt then !Contradicts(a.states, b.states) else !Contradicts(b.states, a.states)
  }

  predicate PairwiseCompatible(os: seq<Observation>) {
    forall i, k :: 0 <= i < k < |os| ==> Compatible(os[i], os[k])
  }

  function HistoryOf(os: seq<Observation>): History {
    if os == [] then map[]
    else HistoryOf(os[..|os| - 1])[os[|os| - 1].observedAt := os[|os| - 1].states]
  }

  lemma {:induction false} HistoryOfContents(os: seq<Observation>)
    requires DistinctTimes(os)
    ensures forall t :: t in HistoryOf(os) <==> exists i :: 0 <= i < |os| && os[i].observedAt == t
    ensures forall i :: 0 <= i < |os| ==> os[i].observedAt in HistoryOf(os) && HistoryOf(os)[os[i].observedAt] == os[i].states
  {
    if os != [] {
      var front := os[..|os| - 1];
      HistoryOfContents(front);
      forall t | t in HistoryOf(front) ensures exists i :: 0 <= i < |os| && os[i].observedAt == t {
        var i :| 0 <= i < |front| && front[i].observedAt == t;
        assert os[i].observedAt == t;
      }
      assert os[|os| - 1].observedAt in HistoryOf(os);
    }
  }

  lemma NoRegressionIffCompatible(os: seq<Observation>)
    requires DistinctTimes(os)
    ensures HasRegression(HistoryOf(os)) <==> !PairwiseCompatible(os)
  {
    var h := HistoryOf(os);
    HistoryOfContents(os);
    hide HistoryOf, DistinctTimes, Contradicts;
    if HasRegression(h) {
      var a, b :| a in h && b in h && a < b && Contradicts(h[a], h[b]);
      var i :| 0 <= i < |os| && os[i].observedAt == a;
      var k :| 0 <= k < |os| && os[k].observedAt == b;
      assert !Compatible(os[i], os[k]) && !Compatible(os[k], os[i]);
    }
    if !PairwiseCompatible(os) {
      var i, k :| 0 <= i < k < |os| && !Compatible(os[i], os[k]);
      assert os[i].observedAt in h && os[k].observedAt in h;
    }
  }

  lemma {:induction false} DeliverFrom(done: seq<Observation>, rest: seq<Observation>)
    requires DistinctTimes(done + rest) && PairwiseCompatible(done)
    ensures Deliver(HistoryOf(done), rest)
            == if PairwiseCompatible(done + rest) then Some(HistoryOf(done + rest)) else None
    decreases |rest|
  {
    assert DistinctTimes(done) by { assert forall i :: 0 <= i < |done| ==> (done + rest)[i] == done[i]; }
    NoRegressionIffCompatible(done);
    if rest == [] {
      assert done + rest == done;
    } else {
      var next := done + [rest[0]];
      assert next + rest[1..] == done + rest;
      assert next[..|next| - 1] == done;
      assert DistinctTimes(next) by { assert forall i :: 0 <= i < |next| ==> (done + rest)[i] == next[i]; }
      HistoryOfContents(done);
      assert rest[0].observedAt !in HistoryOf(done) by {
        assert forall i :: 0 <= i < |done| ==> next[i] == done[i];
        assert next[|done|] == rest[0];
      }
      GuardIsExact(HistoryOf(done), rest[0]);
      NoRegressionIffCompatible(next);
      if PairwiseCompatible(next) {
        DeliverFrom(next, rest[1..]);
      } else {
        PrefixIncompatible(next, rest[1..]);
      }
    }
  }

  lemma PrefixIncompatible(a: seq<Observation>, b: seq<Observation>)
    requires !PairwiseCompatible(a)
    ensures !PairwiseCompatible(a + b)
  {
    var i, k :| 0 <= i < k < |a| && !Compatible(a[i], a[k]);
    assert !Compatible((a + b)[i], (a + b)[k]);
  }

  /** A family with distinct times is accepted in full exactly when it is pairwise compatible. */
  lemma AcceptedIffCompatible(os: seq<Observation>)
    requires DistinctTimes(os)
    ensures Deliver(map[], os) == if PairwiseCompatible(os) then Some(HistoryOf(os)) else None
  {
    DeliverFrom([], os);
    assert [] + os == os;
  }

  /** Arrival order never decides: every reordering of a family is accepted, or none is. */
  lemma ArrivalOrderIsIrrelevant(a: seq<Observation>, b: seq<Observation>)
    requires DistinctTimes(a) && DistinctTimes(b) && multiset(a) == multiset(b)
    ensures Deliver(map[], a).Some? <==> Deliver(map[], b).Some?
    ensures Deliver(map[], a) == Deliver(map[], b)
  {
    AcceptedIffCompatible(a);
    AcceptedIffCompatible(b);
    if PairwiseCompatible(a) { CompatibilityIsOrderFree(a, b); }
    if PairwiseCompatible(b) { CompatibilityIsOrderFree(b, a); }
    SameHistory(a, b);
  }

  lemma CompatibilityIsOrderFree(a: seq<Observation>, b: seq<Observation>)
    requires DistinctTimes(a) && DistinctTimes(b) && multiset(a) == multiset(b) && PairwiseCompatible(a)
    ensures PairwiseCompatible(b)
  {
    forall i, k | 0 <= i < k < |b| ensures Compatible(b[i], b[k]) {
      assert b[i] in multiset(b) && b[k] in multiset(b);
      assert b[i] in a && b[k] in a;
      var m, n :| 0 <= m < |a| && 0 <= n < |a| && a[m] == b[i] && a[n] == b[k];
      assert m != n;
      assert Compatible(a[m], a[n]) || Compatible(a[n], a[m]);
    }
  }

  lemma SameHistory(a: seq<Observation>, b: seq<Observation>)
    requires DistinctTimes(a) && DistinctTimes(b) && multiset(a) == multiset(b)
    ensures HistoryOf(a) == HistoryOf(b)
  {
    HistoryIncluded(a, b);
    HistoryIncluded(b, a);
  }

  lemma HistoryIncluded(a: seq<Observation>, b: seq<Observation>)
    requires DistinctTimes(a) && DistinctTimes(b) && multiset(a) == multiset(b)
    ensures forall t :: t in HistoryOf(a) ==> t in HistoryOf(b) && HistoryOf(b)[t] == HistoryOf(a)[t]
  {
    HistoryOfContents(a);
    HistoryOfContents(b);
    hide HistoryOf, DistinctTimes;
    forall t | t in HistoryOf(a) ensures t in HistoryOf(b) && HistoryOf(b)[t] == HistoryOf(a)[t] {
      var i :| 0 <= i < |a| && a[i].observedAt == t;
      assert a[i] in multiset(b);
      var k :| 0 <= k < |b| && b[k] == a[i];
    }
  }

  /** The latest observation decides the whole past: all UNSPENT now means no proof was ever seen SPENT. */
  lemma LatestUnspentMeansNeverSpent(h: History, latest: nat, width: nat)
    requires !HasRegression(h)
    requires forall t :: t in h ==> |h[t]| == width
    requires latest in h && forall t :: t in h ==> t <= latest
    requires forall i :: 0 <= i < width ==> h[latest][i] == Unspent
    ensures forall t, i :: t in h && 0 <= i < width ==> h[t][i] != Spent
  {
    forall t, i | t in h && 0 <= i < width ensures h[t][i] != Spent {
      if h[t][i] == Spent { assert Contradicts(h[t], h[latest]); }
    }
  }
}
