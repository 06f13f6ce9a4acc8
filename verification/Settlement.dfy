/**
 * One payout obligation of the Stellar processor: the six-state machine of
 * settlement.rs. The class mirrors the Rust struct; every method is tied to a
 * transition function on the plain value, and the lemmas below state what
 * those transitions keep.
 */
module Settlements {
  import opened Outcomes

  // ---------------------------------------------------------------- values

  predicate IsHexDigit(c: char) {
    '0' <= c <= '9' || 'a' <= c <= 'f' || 'A' <= c <= 'F'
  }

  function LowerHex(c: char): char {
    if 'A' <= c <= 'F' then c - 'A' + 'a' else c
  }

  function Lowered(s: string): (r: string)
    ensures |r| == |s|
    ensures forall i :: 0 <= i < |s| ==> r[i] == LowerHex(s[i])
  {
    if s == [] then [] else [LowerHex(s[0])] + Lowered(s[1..])
  }

  /** What TransactionHash::new stores: 64 lower-case hexadecimal characters. */
  predicate IsCanonicalHash(s: string) {
    |s| == 64 && forall i :: 0 <= i < |s| ==> IsHexDigit(s[i]) && LowerHex(s[i]) == s[i]
  }

  type Hash = s: string | IsCanonicalHash(s) witness seq(64, _ => '0')

  /** Characters removed by Rust's str::trim (the Unicode White_Space set). */
  predicate IsWhitespace(c: char) {
    '\U{9}' <= c <= '\U{D}' || c == ' ' || c == '\U{85}' || c == '\U{A0}' || c == '\U{1680}'
    || '\U{2000}' <= c <= '\U{200A}' || c == '\U{2028}' || c == '\U{2029}' || c == '\U{202F}'
    || c == '\U{205F}' || c == '\U{3000}'
  }

  predicate IsBlank(s: string) {
    forall i :: 0 <= i < |s| ==> IsWhitespace(s[i])
  }

  datatype State =
    | Unpaid
    | ProofsReserved
    | Submitted(hash: Hash)
    | Paid(hash: Hash)
    | Failed(reason: string)
    | NeedsAttention(reason: string)

  datatype Prepared = Prepared(hash: Hash, envelope: string, dispatchStarted: bool)

  datatype Value = Value(state: State, prepared: Option<Prepared>)

  datatype Error =
    | EmptyHash
    | InvalidTransactionHash
    | EmptySignedEnvelope
    | MissingPreparedTransaction
    | DispatchNotStarted
    | ConflictingTransaction(existing: Hash, attempted: Hash)
    | TransactionMismatch(expected: Option<Hash>, observed: Hash)
    | OutcomeMustBeObserved
    | InvalidTransition(action: string)

  const New := Value(Unpaid, None)

  function ParseHash(raw: string): (r: Result<Hash, Error>)
    ensures r.Ok? <==> |raw| == 64 && forall i :: 0 <= i < |raw| ==> IsHexDigit(raw[i])
  {
    if IsBlank(raw) then
      assert |raw| == 64 ==> IsWhitespace(raw[0]);
      Err(EmptyHash)
    else if |raw| != 64 || exists i :: 0 <= i < |raw| && !IsHexDigit(raw[i]) then Err(InvalidTransactionHash)
    else Ok(Lowered(raw))
  }

  /** Canonical hashes are the fixed points of parsing, so stored hashes survive being parsed again. */
  lemma CanonicalHashParsesToItself(h: Hash)
    ensures ParseHash(h) == Ok(h)
  {
    assert Lowered(h) == h;
    assert !IsWhitespace(h[0]);
  }

  function PreparedHash(v: Value): Option<Hash> {
    if v.prepared.Some? then Some(v.prepared.value.hash) else None
  }

  predicate DispatchStarted(v: Value) {
    v.prepared.Some? && v.prepared.value.dispatchStarted
  }

  // ----------------------------------------------------------- transitions

  function ReserveProofs(v: Value): Result<Value, Error> {
    match v.state
    case Unpaid => Ok(v.(state := ProofsReserved))
    case ProofsReserved => Ok(v)
    case _ => Err(InvalidTransition("reserve_proofs"))
  }

  function RecordPrepared(v: Value, rawHash: string, envelope: string): Result<Value, Error> {
    if !v.state.ProofsReserved? then Err(InvalidTransition("record_prepared_transaction"))
    else match ParseHash(rawHash)
      case Err(e) => Err(e)
      case Ok(h) =>
        if IsBlank(envelope) then Err(EmptySignedEnvelope)
        else match v.prepared
          case None => Ok(v.(prepared := Some(Prepared(h, envelope, false))))
          case Some(p) =>
            if p.hash == h && p.envelope == envelope then Ok(v)
            else Err(ConflictingTransaction(p.hash, h))
  }

  function RecordDispatchStarted(v: Value): Result<Value, Error> {
    if !v.state.ProofsReserved? then Err(InvalidTransition("record_dispatch_started"))
    else match v.prepared
      case None => Err(MissingPreparedTransaction)
      case Some(p) => Ok(v.(prepared := Some(p.(dispatchStarted := true))))
  }

  function RecordSubmission(v: Value, rawHash: string): Result<Value, Error> {
    match ParseHash(rawHash)
    case Err(e) => Err(e)
    case Ok(h) =>
      if v.prepared.Some? && v.prepared.value.hash != h then
        Err(ConflictingTransaction(v.prepared.value.hash, h))
      else match v.state
        case ProofsReserved =>
          if v.prepared.None? then Err(MissingPreparedTransaction)
          else if !v.prepared.value.dispatchStarted then Err(DispatchNotStarted)
          else Ok(v.(state := Submitted(h)))
        case NeedsAttention(_) => Ok(v.(state := Submitted(h)))
        case Submitted(existing) =>
          if existing == h then Ok(v) else Err(ConflictingTransaction(existing, h))
        case Paid(existing) =>
          if existing == h then Ok(v) else Err(ConflictingTransaction(existing, h))
        case _ => Err(InvalidTransition("record_submission"))
  }

  function ConfirmPaid(v: Value, rawHash: string): Result<Value, Error> {
    match ParseHash(rawHash)
    case Err(e) => Err(e)
    case Ok(observed) =>
      match v.state
      case Submitted(h) =>
        if h == observed then Ok(v.(state := Paid(h))) else Err(TransactionMismatch(Some(h), observed))
      case Paid(h) =>
        if h == observed then Ok(v) else Err(TransactionMismatch(Some(h), observed))
      case NeedsAttention(_) =>
        if PreparedHash(v) == Some(observed) then Ok(v.(state := Paid(observed)))
        else Err(TransactionMismatch(PreparedHash(v), observed))
      case _ => Err(InvalidTransition("confirm_paid"))
  }

  function RecordProvableFailure(v: Value, reason: string): Result<Value, Error> {
    match v.state
    case ProofsReserved =>
      if DispatchStarted(v) then Err(OutcomeMustBeObserved) else Ok(v.(state := Failed(reason)))
    case Submitted(_) => Err(OutcomeMustBeObserved)
    case NeedsAttention(_) => Err(OutcomeMustBeObserved)
    case _ => Err(InvalidTransition("record_provable_failure"))
  }

  function RecordDispatchRejected(v: Value, reason: string): Result<Value, Error> {
    if v.state.ProofsReserved? && DispatchStarted(v) then Ok(v.(state := Failed(reason)))
    else Err(InvalidTransition("record_dispatch_rejected"))
  }

  function RecordObservedFailure(v: Value, rawHash: string, reason: string): Result<Value, Error> {
    match ParseHash(rawHash)
    case Err(e) => Err(e)
    case Ok(h) =>
      if PreparedHash(v) != Some(h) then Err(TransactionMismatch(PreparedHash(v), h))
      else match v.state
        case ProofsReserved => Ok(v.(state := Failed(reason)))
        case Submitted(_) => Ok(v.(state := Failed(reason)))
        case NeedsAttention(_) => Ok(v.(state := Failed(reason)))
        case Failed(_) => Ok(v)
        case _ => Err(InvalidTransition("record_observed_failure"))
  }

  function RequireAttention(v: Value, reason: string): Result<Value, Error> {
    match v.state
    case Submitted(_) => Ok(v.(state := NeedsAttention(reason)))
    case NeedsAttention(_) => Ok(v)
    case ProofsReserved =>
      if DispatchStarted(v) then Ok(v.(state := NeedsAttention(reason)))
      else Err(InvalidTransition("require_attention"))
    case _ => Err(InvalidTransition("require_attention"))
  }

  /** The public transitions as data, so that properties can range over all of them. */
  datatype Op =
    | OpReserveProofs
    | OpRecordPrepared(rawHash: string, envelope: string)
    | OpRecordDispatchStarted
    | OpRecordSubmission(rawHash: string)
    | OpConfirmPaid(rawHash: string)
    | OpRecordProvableFailure(reason: string)
    | OpRecordDispatchRejected(reason: string)
    | OpRecordObservedFailure(rawHash: string, reason: string)
    | OpRequireAttention(reason: string)

  function Step(v: Value, op: Op): Result<Value, Error> {
    match op
    case OpReserveProofs => ReserveProofs(v)
    case OpRecordPrepared(h, e) => RecordPrepared(v, h, e)
    case OpRecordDispatchStarted => RecordDispatchStarted(v)
    case OpRecordSubmission(h) => RecordSubmission(v, h)
    case OpConfirmPaid(h) => ConfirmPaid(v, h)
    case OpRecordProvableFailure(reason) => RecordProvableFailure(v, reason)
    case OpRecordDispatchRejected(reason) => RecordDispatchRejected(v, reason)
    case OpRecordObservedFailure(h, reason) => RecordObservedFailure(v, h, reason)
    case OpRequireAttention(reason) => RequireAttention(v, reason)
  }

  /** A Rust closure that chains transitions with `?`: the first error abandons the whole change. */
  function Steps(v: Value, ops: seq<Op>): Result<Value, Error>
    decreases |ops|
  {
    if ops == [] then Ok(v)
    else match Step(v, ops[0])
      case Err(e) => Err(e)
      case Ok(next) => Steps(next, ops[1..])
  }

  // ------------------------------------------------------------ invariants

  /** Every state that admits an external effect names a dispatched transaction, and its own hash agrees. */
  predicate Valid(v: Value) {
    match v.state
    case Unpaid => v.prepared.None?
    case ProofsReserved => true
    case Submitted(h) => DispatchStarted(v) && v.prepared.value.hash == h
    case Paid(h) => DispatchStarted(v) && v.prepared.value.hash == h
    case Failed(_) => true
    case NeedsAttention(_) => DispatchStarted(v)
  }

  function Rank(s: State): nat {
    match s
    case Unpaid => 0
    case ProofsReserved => 1
    case Submitted(_) => 2
    case NeedsAttention(_) => 2
    case Paid(_) => 3
    case Failed(_) => 3
  }

  /** What a later value must keep: the signed transaction, dispatch intent, terminal results, progress. */
  predicate Keeps(before: Value, after: Value) {
    && (before.prepared.Some? ==>
          && after.prepared.Some?
          && after.prepared.value.hash == before.prepared.value.hash
          && after.prepared.value.envelope == before.prepared.value.envelope
          && (before.prepared.value.dispatchStarted ==> after.prepared.value.dispatchStarted))
    && (before.state.Paid? || before.state.Failed? ==> after == before)
    && Rank(before.state) <= Rank(after.state)
  }

  lemma {:induction false} KeepsIsTransitive(a: Value, b: Value, c: Value)
    requires Keeps(a, b) && Keeps(b, c)
    ensures Keeps(a, c)
  {
  }

  lemma StepKeeps(v: Value, op: Op)
    requires Valid(v) && Step(v, op).Ok?
    ensures Valid(Step(v, op).value) && Keeps(v, Step(v, op).value)
  {
  }

  /** No chain of transitions forgets a signed transaction, dispatch intent or a terminal result. */
  lemma {:induction false} StepsKeep(v: Value, ops: seq<Op>)
    requires Valid(v) && Steps(v, ops).Ok?
    ensures Valid(Steps(v, ops).value) && Keeps(v, Steps(v, ops).value)
    decreases |ops|
  {
    if ops != [] {
      var next := Step(v, ops[0]).value;
      StepKeeps(v, ops[0]);
      StepsKeep(next, ops[1..]);
      KeepsIsTransitive(v, next, Steps(v, ops).value);
    }
  }

  /**
   * Failure without an observed final failure of the prepared hash or an authoritative rejection
   * is possible exactly while dispatch has not started.
   */
  lemma UnobservedFailureIffNotDispatched(v: Value, reason: string)
    requires Valid(v) && v.state != Unpaid && !v.state.Paid? && !v.state.Failed?
    ensures RecordProvableFailure(v, reason).Ok? <==> !DispatchStarted(v)
    ensures !DispatchStarted(v) ==> forall h :: RecordSubmission(v, h).Err? && ConfirmPaid(v, h).Err?
  {
  }

  /**
   * Where each transition is possible and where it leads, by how far the payout has come: reserved, prepared,
   * dispatched, terminal. Validity ties every later state to the one hash that was dispatched.
   */
  lemma TransitionsByPhase(v: Value, h: Hash, envelope: string, reason: string)
    requires Valid(v)
    ensures var live := v.state.ProofsReserved? || v.state.Submitted? || v.state.NeedsAttention?;
            var sent := DispatchStarted(v) && v.prepared.value.hash == h;
            && ReserveProofs(v) == (if v.state.Unpaid? || v.state.ProofsReserved? then Ok(v.(state := ProofsReserved))
                                    else Err(InvalidTransition("reserve_proofs")))
            && (RecordPrepared(v, h, envelope).Ok?
                <==> v.state.ProofsReserved? && !IsBlank(envelope)
                     && (v.prepared.Some? ==> v.prepared.value.hash == h && v.prepared.value.envelope == envelope))
            && (RecordDispatchStarted(v).Ok? <==> v.state.ProofsReserved? && v.prepared.Some?)
            && (RecordSubmission(v, h).Ok? <==> sent && !v.state.Failed?)
            && (ConfirmPaid(v, h).Ok? <==> sent && !v.state.Failed? && !v.state.ProofsReserved?)
            && (RecordProvableFailure(v, reason).Ok? <==> v.state.ProofsReserved? && !DispatchStarted(v))
            && (RecordDispatchRejected(v, reason).Ok? <==> v.state.ProofsReserved? && DispatchStarted(v))
            && (RecordObservedFailure(v, h, reason).Ok? <==> PreparedHash(v) == Some(h) && !v.state.Paid?)
            && (RequireAttention(v, reason).Ok? <==> live && DispatchStarted(v))
    ensures RecordPrepared(v, h, envelope).Ok? ==>
              RecordPrepared(v, h, envelope).value == v.(prepared := Some(Prepared(h, envelope, DispatchStarted(v))))
    ensures RecordDispatchStarted(v).Ok? ==>
              RecordDispatchStarted(v).value == v.(prepared := Some(v.prepared.value.(dispatchStarted := true)))
    ensures RecordSubmission(v, h).Ok? ==>
              RecordSubmission(v, h).value == if v.state.Paid? then v else v.(state := Submitted(h))
    ensures ConfirmPaid(v, h).Ok? ==> ConfirmPaid(v, h).value == v.(state := Paid(h))
    ensures RecordProvableFailure(v, reason).Ok? ==> RecordProvableFailure(v, reason).value == v.(state := Failed(reason))
    ensures RecordDispatchRejected(v, reason).Ok? ==> RecordDispatchRejected(v, reason).value == v.(state := Failed(reason))
    ensures RecordObservedFailure(v, h, reason).Ok? ==>
              RecordObservedFailure(v, h, reason).value == if v.state.Failed? then v else v.(state := Failed(reason))
    ensures RequireAttention(v, reason).Ok? ==>
              RequireAttention(v, reason).value == if v.state.NeedsAttention? then v else v.(state := NeedsAttention(reason))
  {
    CanonicalHashParsesToItself(h);
  }

  /** A single transition reaches Paid only by confirming the hash that was prepared and dispatched. */
  lemma PaidOnlyByMatchingConfirmation(v: Value, op: Op)
    requires Valid(v) && Step(v, op).Ok? && Step(v, op).value.state.Paid? && !v.state.Paid?
    ensures op.OpConfirmPaid? && DispatchStarted(v)
    ensures ParseHash(op.rawHash) == Ok(v.prepared.value.hash)
    ensures Step(v, op).value == Value(Paid(v.prepared.value.hash), v.prepared)
  {
  }

  // ------------------------------------------------------------- the class

  /** `Some(e)` is the Rust `Err(e)`; on an error the object is left exactly as it was. */
  class Settlement {
    var state: State
    var prepared: Option<Prepared>

    ghost function Contents(): Value
      reads this
    {
      Value(state, prepared)
    }

    ghost predicate Agrees(before: Value, result: Result<Value, Error>, error: Option<Error>)
      reads this
    {
      match result
      case Ok(after) => error == None && Contents() == after
      case Err(e) => error == Some(e) && Contents() == before
    }

    constructor ()
      ensures Contents() == New && Valid(Contents())
    {
      state, prepared := Unpaid, None;
    }

    method ReserveProofs() returns (error: Option<Error>)
      modifies this
      ensures Agrees(old(Contents()), Step(old(Contents()), OpReserveProofs), error)
    {
      match state {
        case Unpaid => state := ProofsReserved; return None;
        case ProofsReserved => return None;
        case _ => return Some(InvalidTransition("reserve_proofs"));
      }
    }

    method RecordPreparedTransaction(rawHash: string, envelope: string) returns (error: Option<Error>)
      modifies this
      ensures Agrees(old(Contents()), Step(old(Contents()), OpRecordPrepared(rawHash, envelope)), error)
    {
      if !state.ProofsReserved? {
        return Some(InvalidTransition("record_prepared_transaction"));
      }
      var parsed := ParseHash(rawHash);
      if parsed.Err? {
        return Some(parsed.error);
      }
      if IsBlank(envelope) {
        return Some(EmptySignedEnvelope);
      }
      match prepared {
        case None =>
          prepared := Some(Prepared(parsed.value, envelope, false));
          return None;
        case Some(existing) =>
          if existing.hash == parsed.value && existing.envelope == envelope {
            return None;
          }
          return Some(ConflictingTransaction(existing.hash, parsed.value));
      }
    }

    method RecordDispatchStarted() returns (error: Option<Error>)
      modifies this
      ensures Agrees(old(Contents()), Step(old(Contents()), OpRecordDispatchStarted), error)
    {
      if !state.ProofsReserved? {
        return Some(InvalidTransition("record_dispatch_started"));
      }
      if prepared.None? {
        return Some(MissingPreparedTransaction);
      }
      prepared := Some(prepared.value.(dispatchStarted := true));
      return None;
    }

    method RecordSubmission(rawHash: string) returns (error: Option<Error>)
      modifies this
      ensures Agrees(old(Contents()), Step(old(Contents()), OpRecordSubmission(rawHash)), error)
    {
      var parsed := ParseHash(rawHash);
      if parsed.Err? {
        return Some(parsed.error);
      }
      var hash := parsed.value;
      if prepared.Some? && prepared.value.hash != hash {
        return Some(ConflictingTransaction(prepared.value.hash, hash));
      }
      match state {
        case ProofsReserved =>
          if prepared.None? {
            return Some(MissingPreparedTransaction);
          }
          if !prepared.value.dispatchStarted {
            return Some(Error.DispatchNotStarted);
          }
          state := Submitted(hash);
          return None;
        case NeedsAttention(_) =>
          state := Submitted(hash);
          return None;
        case Submitted(existing) =>
          return if existing == hash then None else Some(ConflictingTransaction(existing, hash));
        case Paid(existing) =>
          return if existing == hash then None else Some(ConflictingTransaction(existing, hash));
        case _ =>
          return Some(InvalidTransition("record_submission"));
      }
    }

    method ConfirmPaid(rawHash: string) returns (error: Option<Error>)
      modifies this
      ensures Agrees(old(Contents()), Step(old(Contents()), OpConfirmPaid(rawHash)), error)
    {
      var parsed := ParseHash(rawHash);
      if parsed.Err? {
        return Some(parsed.error);
      }
      var observed := parsed.value;
      match state {
        case Submitted(hash) =>
          if hash != observed {
            return Some(TransactionMismatch(Some(hash), observed));
          }
          state := Paid(hash);
          return None;
        case NeedsAttention(_) =>
          if prepared.None? || prepared.value.hash != observed {
            return Some(TransactionMismatch(if prepared.None? then None else Some(prepared.value.hash), observed));
          }
          state := Paid(observed);
          return None;
        case Paid(hash) =>
          return if hash == observed then None else Some(TransactionMismatch(Some(hash), observed));
        case _ =>
          return Some(InvalidTransition("confirm_paid"));
      }
    }

    method RecordProvableFailure(reason: string) returns (error: Option<Error>)
      modifies this
      ensures Agrees(old(Contents()), Step(old(Contents()), OpRecordProvableFailure(reason)), error)
    {
      match state {
        case ProofsReserved =>
          if prepared.Some? && prepared.value.dispatchStarted {
            return Some(OutcomeMustBeObserved);
          }
          state := Failed(reason);
          return None;
        case Submitted(_) => return Some(OutcomeMustBeObserved);
        case NeedsAttention(_) => return Some(OutcomeMustBeObserved);
        case _ => return Some(InvalidTransition("record_provable_failure"));
      }
    }

    method RecordDispatchRejected(reason: string) returns (error: Option<Error>)
      modifies this
      ensures Agrees(old(Contents()), Step(old(Contents()), OpRecordDispatchRejected(reason)), error)
    {
      if state.ProofsReserved? && prepared.Some? && prepared.value.dispatchStarted {
        state := Failed(reason);
        return None;
      }
      return Some(InvalidTransition("record_dispatch_rejected"));
    }

    method RecordObservedFailure(rawHash: string, reason: string) returns (error: Option<Error>)
      modifies this
      ensures Agrees(old(Contents()), Step(old(Contents()), OpRecordObservedFailure(rawHash, reason)), error)
    {
      var parsed := ParseHash(rawHash);
      if parsed.Err? {
        return Some(parsed.error);
      }
      var expected := if prepared.Some? then Some(prepared.value.hash) else None;
      if expected != Some(parsed.value) {
        return Some(TransactionMismatch(expected, parsed.value));
      }
      match state {
        case Failed(_) =>
          return None;
        case Unpaid =>
          return Some(InvalidTransition("record_observed_failure"));
        case Paid(_) =>
          return Some(InvalidTransition("record_observed_failure"));
        case _ =>
          state := Failed(reason);
          return None;
      }
    }

    method RequireAttention(reason: string) returns (error: Option<Error>)
      modifies this
      ensures Agrees(old(Contents()), Step(old(Contents()), OpRequireAttention(reason)), error)
    {
      match state {
        case Submitted(_) =>
          state := NeedsAttention(reason);
          return None;
        case NeedsAttention(_) =>
          return None;
        case ProofsReserved =>
          if prepared.Some? && prepared.value.dispatchStarted {
            state := NeedsAttention(reason);
            return None;
          }
          return Some(InvalidTransition("require_attention"));
        case _ =>
          return Some(InvalidTransition("require_attention"));
      }
    }
  }
}
