/**
 * The Cashu input fee, computed once when a payment is validated
 * (payment-payload.ts) and again when its melt is dispatched
 * (cashu-stellar-melt-coordinator.ts), and the exact-amount check of the
 * execution client (stellar-melt-execution-client.ts).
 */
module InputFees {
  import opened Outcomes
  import opened MeltRecords
  import opened MeltStore
  import MeltCalls
  import Ledger

  const MAX_SAFE: nat := Ledger.MAX_SAFE_INTEGER

  /** `amounts` are the denominations the keyset has a key for. */
  datatype Keyset = Keyset(unit: string, inputFeePpk: nat, finalExpiry: Option<nat>, amounts: set<nat>)

  datatype Snapshot = Snapshot(mintUrl: string, observedAt: nat, keysets: map<string, Keyset>)

  /** A proof as received; `y` is the curve point its secret hashes to. */
  datatype WireProof = WireProof(secret: string, keysetId: string, amount: nat, y: nat)

  datatype FeeError =
    | TooManyProofs | InvalidProof | AmountLimitExceeded | SnapshotFromFuture | MintMismatch | DuplicateProof
    | KeysetNotFound | KeysetUnitMismatch | KeysetExpired | IntegrityFailed | FeeExceedsAmount | EvidenceInvalid

  datatype Validated = Validated(inputFee: nat, netAmount: nat, references: seq<Proof>)

  // -------------------------------------------------------------------- sums

  function Amounts(proofs: seq<WireProof>): nat {
    if proofs == [] then 0 else Amounts(proofs[..|proofs| - 1]) + Last(proofs).amount
  }

  function KeysetIds(proofs: seq<WireProof>): seq<string> {
    seq(|proofs|, i requires 0 <= i < |proofs| => proofs[i].keysetId)
  }

  function ReferenceKeysetIds(proofs: seq<Proof>): seq<string> {
    seq(|proofs|, i requires 0 <= i < |proofs| => proofs[i].keysetId)
  }

  function PpkOf(keysets: map<string, Keyset>, id: string): nat {
    if id in keysets then keysets[id].inputFeePpk else 0
  }

  /** The fee rate summed over the inputs, in parts per thousand. */
  function TotalPpk(keysets: map<string, Keyset>, ids: seq<string>): nat {
    if ids == [] then 0 else TotalPpk(keysets, ids[..|ids| - 1]) + PpkOf(keysets, Last(ids))
  }

  function RoundedUp(ppk: nat): nat { (ppk + 999) / 1000 }

  /** The fee is the least whole amount that covers the summed rate: one thousand parts make a unit. */
  lemma FeeIsLeastCover(ppk: nat, n: nat)
    ensures ppk <= 1000 * RoundedUp(ppk)
    ensures ppk <= 1000 * n <==> RoundedUp(ppk) <= n
  {
  }

  // -------------------------------------------------------------- validation

  /** The first proof the decoder refuses. */
  function FirstAmountFault(proofs: seq<WireProof>): Option<FeeError> {
    if proofs == [] then None
    else match FirstAmountFault(proofs[..|proofs| - 1])
      case Some(e) => Some(e)
      case None =>
        if Last(proofs).amount == 0 then Some(InvalidProof)
        else if Amounts(proofs) > MAX_SAFE then Some(AmountLimitExceeded)
        else None
  }

  function KeysetFault(s: Snapshot, unit: string, at: nat, id: string): Option<FeeError> {
    if id !in s.keysets then Some(KeysetNotFound)
    else if s.keysets[id].unit != unit then Some(KeysetUnitMismatch)
    else if s.keysets[id].finalExpiry.Some? && s.keysets[id].finalExpiry.value <= at then Some(KeysetExpired)
    else None
  }

  predicate SecretSeen(proofs: seq<WireProof>, secret: string) {
    exists i :: 0 <= i < |proofs| && proofs[i].secret == secret
  }

  /** The first proof the validator refuses. */
  function FirstProofFault(s: Snapshot, unit: string, at: nat, proofs: seq<WireProof>): Option<FeeError> {
    if proofs == [] then None
    else match FirstProofFault(s, unit, at, proofs[..|proofs| - 1])
      case Some(e) => Some(e)
      case None =>
        if SecretSeen(proofs[..|proofs| - 1], Last(proofs).secret) then Some(DuplicateProof)
        else KeysetFault(s, unit, at, Last(proofs).keysetId)
  }

  predicate DistinctPoints(proofs: seq<WireProof>) {
    forall i, k :: 0 <= i < k < |proofs| ==> proofs[i].y != proofs[k].y
  }

  function References(proofs: seq<WireProof>): seq<Proof> {
    seq(|proofs|, i requires 0 <= i < |proofs| => Proof(proofs[i].y, proofs[i].keysetId, proofs[i].amount))
  }

  /** validateCashuPaymentProofsV1; `intact` is the verdict of the signature and DLEQ check. */
  function Validate(s: Snapshot, mintUrl: string, unit: string, proofs: seq<WireProof>, at: nat, intact: bool)
    : Result<Validated, FeeError>
  {
    if |proofs| > MAX_PAYMENT_PROOFS then Err(TooManyProofs)
    else if FirstAmountFault(proofs).Some? then Err(FirstAmountFault(proofs).value)
    else if s.observedAt > at then Err(SnapshotFromFuture)
    else if s.mintUrl != mintUrl then Err(MintMismatch)
    else if FirstProofFault(s, unit, at, proofs).Some? then Err(FirstProofFault(s, unit, at, proofs).value)
    else if !intact then Err(IntegrityFailed)
    else if !DistinctPoints(proofs) then Err(DuplicateProof)
    else
      var fee := RoundedUp(TotalPpk(s.keysets, KeysetIds(proofs)));
      if fee > Amounts(proofs) then Err(FeeExceedsAmount)
      else Ok(Validated(fee, Amounts(proofs) - fee, SortByY(References(proofs))))
  }

  /** The amount loop of decodePaymentPayload. */
  method DecodeAmounts(proofs: seq<WireProof>) returns (r: Result<nat, FeeError>)
    ensures r == match FirstAmountFault(proofs) case Some(e) => Err(e) case None => Ok(Amounts(proofs))
  {
    var grossAmount: nat := 0;
    for i := 0 to |proofs|
      invariant FirstAmountFault(proofs[..i]).None? && grossAmount == Amounts(proofs[..i])
    {
      assert proofs[..i + 1][..i] == proofs[..i];
      if proofs[i].amount == 0 {
        FaultStays(proofs, i + 1);
        return Err(InvalidProof);
      }
      grossAmount := grossAmount + proofs[i].amount;
      if grossAmount > MAX_SAFE {
        FaultStays(proofs, i + 1);
        return Err(AmountLimitExceeded);
      }
    }
    assert proofs[..|proofs|] == proofs;
    return Ok(grossAmount);
  }

  lemma {:induction false} FaultStays(proofs: seq<WireProof>, n: nat)
    requires n <= |proofs| && FirstAmountFault(proofs[..n]).Some?
    ensures FirstAmountFault(proofs) == FirstAmountFault(proofs[..n])
  {
    if n < |proofs| {
      assert proofs[..|proofs| - 1][..n] == proofs[..n];
      FaultStays(proofs[..|proofs| - 1], n);
    } else {
      assert proofs[..n] == proofs;
    }
  }

  lemma {:induction false} ProofFaultStays(s: Snapshot, unit: string, at: nat, proofs: seq<WireProof>, n: nat)
    requires n <= |proofs| && FirstProofFault(s, unit, at, proofs[..n]).Some?
    ensures FirstProofFault(s, unit, at, proofs) == FirstProofFault(s, unit, at, proofs[..n])
  {
    if n < |proofs| {
      assert proofs[..|proofs| - 1][..n] == proofs[..n];
      ProofFaultStays(s, unit, at, proofs[..|proofs| - 1], n);
    } else {
      assert proofs[..n] == proofs;
    }
  }

  /** The proof loop of validateCashuPaymentProofsV1. */
  method SumInputFee(s: Snapshot, unit: string, at: nat, proofs: seq<WireProof>) returns (r: Result<nat, FeeError>)
    ensures r == match FirstProofFault(s, unit, at, proofs)
                 case Some(e) => Err(e)
                 case None => Ok(TotalPpk(s.keysets, KeysetIds(proofs)))
  {
    var secrets: set<string> := {};
    var inputFeePpk: nat := 0;
    for i := 0 to |proofs|
      invariant FirstProofFault(s, unit, at, proofs[..i]).None?
      invariant forall secret :: secret in secrets <==> SecretSeen(proofs[..i], secret)
      invariant inputFeePpk == TotalPpk(s.keysets, KeysetIds(proofs[..i]))
    {
      var proof := proofs[i];
      assert proofs[..i + 1][..i] == proofs[..i];
      if proof.secret in secrets {
        ProofFaultStays(s, unit, at, proofs, i + 1);
        return Err(DuplicateProof);
      }
      secrets := secrets + {proof.secret};
      SecretsOfNext(proofs, i);
      if proof.keysetId !in s.keysets {
        ProofFaultStays(s, unit, at, proofs, i + 1);
        return Err(KeysetNotFound);
      }
      var keyset := s.keysets[proof.keysetId];
      if keyset.unit != unit {
        ProofFaultStays(s, unit, at, proofs, i + 1);
        return Err(KeysetUnitMismatch);
      }
      if keyset.finalExpiry.Some? && keyset.finalExpiry.value <= at {
        ProofFaultStays(s, unit, at, proofs, i + 1);
        return Err(KeysetExpired);
      }
      var ids := KeysetIds(proofs[..i + 1]);
      assert ids[..i] == KeysetIds(proofs[..i]);
      inputFeePpk := inputFeePpk + keyset.inputFeePpk;
    }
    assert proofs[..|proofs|] == proofs;
    return Ok(inputFeePpk);
  }

  lemma SecretsOfNext(proofs: seq<WireProof>, i: nat)
    requires i < |proofs|
    ensures forall secret :: SecretSeen(proofs[..i + 1], secret) <==> SecretSeen(proofs[..i], secret) || secret == proofs[i].secret
  {
    forall secret | SecretSeen(proofs[..i], secret) || secret == proofs[i].secret ensures SecretSeen(proofs[..i + 1], secret) {
      if secret == proofs[i].secret {
        assert proofs[..i + 1][i].secret == secret;
      } else {
        var k :| 0 <= k < i && proofs[..i][k].secret == secret;
        assert proofs[..i + 1][k].secret == secret;
      }
    }
    forall secret | SecretSeen(proofs[..i + 1], secret) ensures SecretSeen(proofs[..i], secret) || secret == proofs[i].secret {
      var k :| 0 <= k < i + 1 && proofs[..i + 1][k].secret == secret;
      if k < i { assert proofs[..i][k].secret == secret; }
    }
  }

  method HasDistinctPoints(proofs: seq<WireProof>) returns (ok: bool)
    ensures ok <==> DistinctPoints(proofs)
  {
    var proofYs: set<nat> := {};
    for i := 0 to |proofs|
      invariant proofYs == set k | 0 <= k < i :: proofs[k].y
      invariant DistinctPoints(proofs[..i])
    {
      if proofs[i].y in proofYs {
        return false;
      }
      proofYs := proofYs + {proofs[i].y};
    }
    assert proofs[..|proofs|] == proofs;
    return true;
  }

  method ValidatePayment(s: Snapshot, mintUrl: string, unit: string, proofs: seq<WireProof>, at: nat, intact: bool)
    returns (r: Result<Validated, FeeError>)
    ensures r == Validate(s, mintUrl, unit, proofs, at, intact)
  {
    if |proofs| > MAX_PAYMENT_PROOFS {
      return Err(TooManyProofs);
    }
    var gross := DecodeAmounts(proofs);
    if gross.Err? {
      return Err(gross.error);
    }
    if s.observedAt > at {
      return Err(SnapshotFromFuture);
    }
    if s.mintUrl != mintUrl {
      return Err(MintMismatch);
    }
    var ppk := SumInputFee(s, unit, at, proofs);
    if ppk.Err? {
      return Err(ppk.error);
    }
    if !intact {
      return Err(IntegrityFailed);
    }
    var distinct := HasDistinctPoints(proofs);
    if !distinct {
      return Err(DuplicateProof);
    }
    var inputFee := (ppk.value + 999) / 1000;
    if inputFee > gross.value {
      return Err(FeeExceedsAmount);
    }
    return Ok(Validated(inputFee, gross.value - inputFee, SortByY(References(proofs))));
  }

  // ------------------------------------------------------ what is refused, and why

  /** Every amount is positive and their sum is a safe integer. */
  predicate AmountsFine(proofs: seq<WireProof>) {
    (forall i :: 0 <= i < |proofs| ==> proofs[i].amount > 0) && Amounts(proofs) <= MAX_SAFE
  }

  lemma {:induction false} AmountsFineIffNoFault(proofs: seq<WireProof>)
    ensures AmountsFine(proofs) <==> FirstAmountFault(proofs).None?
  {
    if proofs != [] {
      var front := proofs[..|proofs| - 1];
      AmountsFineIffNoFault(front);
      assert forall i :: 0 <= i < |front| ==> front[i] == proofs[i];
      assert AmountsFine(proofs) ==> AmountsFine(front);
    }
  }

  /** The first proof that spoils the amounts names the fault: a zero amount, or a sum beyond the safe integers. */
  lemma AmountFaultIsFirst(proofs: seq<WireProof>, k: nat)
    requires k < |proofs| && AmountsFine(proofs[..k]) && !AmountsFine(proofs[..k + 1])
    ensures FirstAmountFault(proofs) == Some(if proofs[k].amount == 0 then InvalidProof else AmountLimitExceeded)
  {
    var upTo := proofs[..k + 1];
    assert upTo[..k] == proofs[..k];
    AmountsFineIffNoFault(proofs[..k]);
    AmountsFineIffNoFault(upTo);
    FaultStays(proofs, k + 1);
  }

  predicate DistinctSecrets(proofs: seq<WireProof>) {
    forall i, k :: 0 <= i < k < |proofs| ==> proofs[i].secret != proofs[k].secret
  }

  /** The keyset is known, of the payment's unit, and has not expired. */
  predicate KeysetFine(s: Snapshot, unit: string, at: nat, id: string) {
    && id in s.keysets && s.keysets[id].unit == unit
    && (s.keysets[id].finalExpiry.Some? ==> at < s.keysets[id].finalExpiry.value)
  }

  predicate ProofsFine(s: Snapshot, unit: string, at: nat, proofs: seq<WireProof>) {
    DistinctSecrets(proofs) && forall i :: 0 <= i < |proofs| ==> KeysetFine(s, unit, at, proofs[i].keysetId)
  }

  lemma {:induction false} ProofsFineIffNoFault(s: Snapshot, unit: string, at: nat, proofs: seq<WireProof>)
    ensures ProofsFine(s, unit, at, proofs) <==> FirstProofFault(s, unit, at, proofs).None?
  {
    if proofs != [] {
      var front := proofs[..|proofs| - 1];
      ProofsFineIffNoFault(s, unit, at, front);
      assert forall i :: 0 <= i < |front| ==> front[i] == proofs[i];
      if ProofsFine(s, unit, at, proofs) {
        assert ProofsFine(s, unit, at, front);
        assert KeysetFine(s, unit, at, Last(proofs).keysetId);
      }
      if FirstProofFault(s, unit, at, proofs).None? {
        forall i | 0 <= i < |front| ensures proofs[i].secret != Last(proofs).secret {
          assert front[i].secret == proofs[i].secret;
        }
      }
    }
  }

  /** The checks on one proof, in their order, each with its error. */
  function ProofChecks(s: Snapshot, unit: string, at: nat, earlier: seq<WireProof>, proof: WireProof): seq<(bool, FeeError)> {
    [(forall i :: 0 <= i < |earlier| ==> earlier[i].secret != proof.secret, DuplicateProof),
     (proof.keysetId in s.keysets, KeysetNotFound),
     (proof.keysetId in s.keysets ==> s.keysets[proof.keysetId].unit == unit, KeysetUnitMismatch),
     (proof.keysetId in s.keysets && s.keysets[proof.keysetId].finalExpiry.Some? ==>
        at < s.keysets[proof.keysetId].finalExpiry.value, KeysetExpired)]
  }

  /** The first proof that is refused is refused by the first of its checks that fails. */
  lemma ProofFaultIsFirst(s: Snapshot, unit: string, at: nat, proofs: seq<WireProof>, k: nat)
    requires k < |proofs| && ProofsFine(s, unit, at, proofs[..k]) && !ProofsFine(s, unit, at, proofs[..k + 1])
    ensures var fault := FirstProofFault(s, unit, at, proofs);
            fault.Some? && FailsFirst(ProofChecks(s, unit, at, proofs[..k], proofs[k]), fault.value)
  {
    var upTo := proofs[..k + 1];
    assert upTo[..k] == proofs[..k];
    ProofsFineIffNoFault(s, unit, at, proofs[..k]);
    ProofsFineIffNoFault(s, unit, at, upTo);
    ProofFaultStays(s, unit, at, proofs, k + 1);
    var checks := ProofChecks(s, unit, at, proofs[..k], proofs[k]);
    var first := if !checks[0].0 then 0 else if !checks[1].0 then 1 else if !checks[2].0 then 2 else 3;
    assert !checks[first].0;
    FirstFailure(checks, first);
  }

  /** The stages of a validation, in their order, each with its error. */
  function Stages(s: Snapshot, mintUrl: string, unit: string, proofs: seq<WireProof>, at: nat, intact: bool): seq<(bool, FeeError)> {
    [(|proofs| <= MAX_PAYMENT_PROOFS, TooManyProofs),
     (AmountsFine(proofs), if FirstAmountFault(proofs).Some? then FirstAmountFault(proofs).value else InvalidProof),
     (s.observedAt <= at, SnapshotFromFuture),
     (s.mintUrl == mintUrl, MintMismatch),
     (ProofsFine(s, unit, at, proofs), if FirstProofFault(s, unit, at, proofs).Some? then FirstProofFault(s, unit, at, proofs).value
                                       else EvidenceInvalid),
     (intact, IntegrityFailed),
     (DistinctPoints(proofs), DuplicateProof),
     (TotalPpk(s.keysets, KeysetIds(proofs)) <= 1000 * Amounts(proofs), FeeExceedsAmount)]
  }

  /**
   * A payment is validated exactly when every stage passes: it is refused with the error of the first that does not.
   * The fee then covers the summed rate, and what is left of the amount is the net amount.
   */
  lemma ValidatesByStages(s: Snapshot, mintUrl: string, unit: string, proofs: seq<WireProof>, at: nat, intact: bool)
    ensures var stages, r := Stages(s, mintUrl, unit, proofs, at, intact), Validate(s, mintUrl, unit, proofs, at, intact);
            && (r.Ok? <==> AllPass(stages))
            && (r.Err? ==> FailsFirst(stages, r.error))
            && (r.Ok? ==>
                  && r.value.inputFee + r.value.netAmount == Amounts(proofs)
                  && 1000 * r.value.inputFee - 1000 < TotalPpk(s.keysets, KeysetIds(proofs)) <= 1000 * r.value.inputFee
                  && multiset(r.value.references) == multiset(References(proofs)) && MeltCalls.Increasing(r.value.references))
  {
    hide Amounts, TotalPpk, ProofsFine, AmountsFine, DistinctPoints, SortByY, FirstAmountFault, FirstProofFault, MeltCalls.Increasing;
    AmountsFineIffNoFault(proofs);
    ProofsFineIffNoFault(s, unit, at, proofs);
    FeeIsLeastCover(TotalPpk(s.keysets, KeysetIds(proofs)), Amounts(proofs));
    MeltCalls.ReservationIsSorted(References(proofs));
    var stages, r := Stages(s, mintUrl, unit, proofs, at, intact), Validate(s, mintUrl, unit, proofs, at, intact);
    var first := if !stages[0].0 then 0 else if !stages[1].0 then 1 else if !stages[2].0 then 2 else if !stages[3].0 then 3
                 else if !stages[4].0 then 4 else if !stages[5].0 then 5 else if !stages[6].0 then 6 else 7;
    if !stages[first].0 { FirstFailure(stages, first); }
  }

  // ---------------------------------------------------------------- dispatch

  predicate KeysetUsable(s: Snapshot, unit: string, at: nat, proof: Proof) {
    && proof.keysetId in s.keysets
    && s.keysets[proof.keysetId].unit == unit
    && proof.amount in s.keysets[proof.keysetId].amounts
    && (s.keysets[proof.keysetId].finalExpiry.Some? ==> at < s.keysets[proof.keysetId].finalExpiry.value)
  }

  predicate AllUsable(s: Snapshot, unit: string, at: nat, proofs: seq<Proof>) {
    forall i :: 0 <= i < |proofs| ==> KeysetUsable(s, unit, at, proofs[i])
  }

  /** deriveInputFee on the reserved proofs. */
  function Derive(s: Snapshot, r: Reservation, quoteAmount: nat, at: nat): Result<nat, FeeError> {
    var fee := RoundedUp(TotalPpk(s.keysets, ReferenceKeysetIds(r.proofs)));
    if s.mintUrl != r.mintUrl || s.observedAt != r.keysetObservedAt || !AllUsable(s, r.unit, at, r.proofs)
       || fee > MAX_SAFE || quoteAmount + fee != Gross(r.proofs)
    then Err(EvidenceInvalid)
    else Ok(fee)
  }

  method DeriveInputFee(s: Snapshot, r: Reservation, quoteAmount: nat, at: nat) returns (result: Result<nat, FeeError>)
    ensures result == Derive(s, r, quoteAmount, at)
  {
    if s.mintUrl != r.mintUrl || s.observedAt != r.keysetObservedAt {
      return Err(EvidenceInvalid);
    }
    var feePpk: nat := 0;
    for i := 0 to |r.proofs|
      invariant forall k :: 0 <= k < i ==> KeysetUsable(s, r.unit, at, r.proofs[k])
      invariant feePpk == TotalPpk(s.keysets, ReferenceKeysetIds(r.proofs[..i]))
    {
      var proof := r.proofs[i];
      if !KeysetUsable(s, r.unit, at, proof) {
        return Err(EvidenceInvalid);
      }
      var ids := ReferenceKeysetIds(r.proofs[..i + 1]);
      assert ids[..i] == ReferenceKeysetIds(r.proofs[..i]);
      feePpk := feePpk + s.keysets[proof.keysetId].inputFeePpk;
    }
    assert r.proofs[..|r.proofs|] == r.proofs;
    var inputFee := (feePpk + 999) / 1000;
    if inputFee > MAX_SAFE || quoteAmount + inputFee != Gross(r.proofs) {
      return Err(EvidenceInvalid);
    }
    return Ok(inputFee);
  }

  /** requireExactInputAmount on the inputs that are about to be sent. */
  method RequireExactInputAmount(inputs: seq<WireProof>, amount: nat, inputFee: nat) returns (ok: bool)
    ensures ok <==> Amounts(inputs) == amount + inputFee && Amounts(inputs) <= MAX_SAFE
  {
    var total: nat := 0;
    for i := 0 to |inputs|
      invariant total == Amounts(inputs[..i]) && total <= MAX_SAFE
    {
      assert inputs[..i + 1][..i] == inputs[..i];
      total := total + inputs[i].amount;
      if total > MAX_SAFE {
        AmountsOfPrefix(inputs, i + 1);
        return false;
      }
    }
    assert inputs[..|inputs|] == inputs;
    return amount + inputFee <= MAX_SAFE && total == amount + inputFee;
  }

  lemma {:induction false} AmountsOfPrefix(proofs: seq<WireProof>, n: nat)
    requires n <= |proofs|
    ensures Amounts(proofs[..n]) <= Amounts(proofs)
  {
    if n < |proofs| {
      assert proofs[..|proofs| - 1][..n] == proofs[..n];
      AmountsOfPrefix(proofs[..|proofs| - 1], n);
    } else {
      assert proofs[..n] == proofs;
    }
  }

  // --------------------------------------------------------- order and sorting

  function Without<T>(s: seq<T>, k: nat): seq<T>
    requires k < |s|
  {
    s[..k] + s[k + 1..]
  }

  lemma WithoutMultiset<T>(s: seq<T>, k: nat)
    requires k < |s|
    ensures multiset(Without(s, k)) == multiset(s) - multiset{s[k]}
  {
    assert s == s[..k] + ([s[k]] + s[k + 1..]);
  }

  /** What a single proof adds to the gross amount, wherever it stands. */
  lemma {:induction false} GrossWithout(proofs: seq<Proof>, k: nat)
    requires k < |proofs|
    ensures Gross(proofs) == Gross(Without(proofs, k)) + proofs[k].amount
    decreases |proofs|
  {
    var front := proofs[..|proofs| - 1];
    if k == |front| {
      assert Without(proofs, k) == front;
    } else {
      GrossWithout(front, k);
      assert Without(proofs, k)[..|front| - 1] == Without(front, k);
    }
  }

  /** What a single proof adds to the summed rate. */
  lemma {:induction false} PpkWithout(keysets: map<string, Keyset>, ids: seq<string>, k: nat)
    requires k < |ids|
    ensures TotalPpk(keysets, ids) == TotalPpk(keysets, Without(ids, k)) + PpkOf(keysets, ids[k])
    decreases |ids|
  {
    var front := ids[..|ids| - 1];
    if k == |front| {
      assert Without(ids, k) == front;
    } else {
      PpkWithout(keysets, front, k);
      assert Without(ids, k)[..|front| - 1] == Without(front, k);
    }
  }

  lemma ReferenceWithout(proofs: seq<Proof>, k: nat)
    requires k < |proofs|
    ensures ReferenceKeysetIds(Without(proofs, k)) == Without(ReferenceKeysetIds(proofs), k)
    ensures ReferenceKeysetIds(proofs)[k] == proofs[k].keysetId
  {
  }

  lemma Find<T>(a: seq<T>, b: seq<T>) returns (k: nat)
    requires multiset(a) == multiset(b) && a != []
    ensures k < |b| && b[k] == Last(a)
    ensures multiset(Without(a, |a| - 1)) == multiset(Without(b, k))
  {
    assert Last(a) in multiset(b);
    k :| 0 <= k < |b| && b[k] == Last(a);
    WithoutMultiset(a, |a| - 1);
    WithoutMultiset(b, k);
  }

  /** Neither the gross amount nor the summed rate depends on the order of the proofs. */
  lemma {:induction false} SumsIgnoreOrder(keysets: map<string, Keyset>, a: seq<Proof>, b: seq<Proof>)
    requires multiset(a) == multiset(b)
    ensures Gross(a) == Gross(b)
    ensures TotalPpk(keysets, ReferenceKeysetIds(a)) == TotalPpk(keysets, ReferenceKeysetIds(b))
    decreases |a|
  {
    if a == [] {
      assert |multiset(b)| == 0;
    } else {
      var last := |a| - 1;
      var k := Find(a, b);
      assert |Without(a, last)| < |a|;
      hide Without, ReferenceKeysetIds, Gross, TotalPpk, PpkOf;
      SumsIgnoreOrder(keysets, Without(a, last), Without(b, k));
      SumsWithout(keysets, a, last);
      SumsWithout(keysets, b, k);
    }
  }

  lemma SumsWithout(keysets: map<string, Keyset>, proofs: seq<Proof>, k: nat)
    requires k < |proofs|
    ensures Gross(proofs) == Gross(Without(proofs, k)) + proofs[k].amount
    ensures TotalPpk(keysets, ReferenceKeysetIds(proofs))
            == TotalPpk(keysets, ReferenceKeysetIds(Without(proofs, k))) + PpkOf(keysets, proofs[k].keysetId)
  {
    GrossWithout(proofs, k);
    PpkWithout(keysets, ReferenceKeysetIds(proofs), k);
    ReferenceWithout(proofs, k);
  }

  lemma {:induction false} ReferencesKeepSums(proofs: seq<WireProof>)
    ensures Gross(References(proofs)) == Amounts(proofs)
    ensures ReferenceKeysetIds(References(proofs)) == KeysetIds(proofs)
  {
    if proofs != [] {
      ReferencesKeepSums(proofs[..|proofs| - 1]);
      assert References(proofs)[..|proofs| - 1] == References(proofs[..|proofs| - 1]);
    }
  }

  // ------------------------------------------------------------- main results

  /**
   * A payment validated and reserved under one keyset snapshot: at any later clock the dispatcher derives a fee
   * exactly when the keysets are still usable and the quote asks for the net amount, and then it is the
   * validated fee. The order of the proofs does not matter.
   */
  lemma DispatchedFeeIsValidatedFee(s: Snapshot, mintUrl: string, unit: string, proofs: seq<WireProof>, at: nat, intact: bool,
                                    r: Reservation, quoteAmount: nat, later: nat)
    requires Validate(s, mintUrl, unit, proofs, at, intact).Ok?
    requires r.mintUrl == mintUrl && r.unit == unit && r.keysetObservedAt == s.observedAt
    requires multiset(r.proofs) == multiset(References(proofs))
    ensures var v := Validate(s, mintUrl, unit, proofs, at, intact).value;
            Derive(s, r, quoteAmount, later)
            == if AllUsable(s, unit, later, r.proofs) && quoteAmount == v.netAmount then Ok(v.inputFee) else Err(EvidenceInvalid)
  {
    hide FirstProofFault, AllUsable, SortByY;
    SumsIgnoreOrder(s.keysets, r.proofs, References(proofs));
    ReferencesKeepSums(proofs);
    NoFaultBoundsAmounts(proofs);
  }

  lemma NoFaultBoundsAmounts(proofs: seq<WireProof>)
    requires FirstAmountFault(proofs).None?
    ensures Amounts(proofs) <= MAX_SAFE
  {
  }

  /** The references a validation returns are what a reservation of them stores. */
  lemma ValidatedReferencesAreReserved(s: Snapshot, mintUrl: string, unit: string, proofs: seq<WireProof>, at: nat, intact: bool)
    requires Validate(s, mintUrl, unit, proofs, at, intact).Ok?
    ensures multiset(Validate(s, mintUrl, unit, proofs, at, intact).value.references) == multiset(References(proofs))
    ensures multiset(SortByY(Validate(s, mintUrl, unit, proofs, at, intact).value.references)) == multiset(References(proofs))
  {
    assert Validate(s, mintUrl, unit, proofs, at, intact).value.references == SortByY(References(proofs)) by {
      hide SortByY, References;
    }
    hide *;
    MeltCalls.ReservationIsSorted(References(proofs));
    MeltCalls.ReservationIsSorted(SortByY(References(proofs)));
  }

  /**
   * Inputs sent under a derived fee, in any order, sum to the quoted amount plus the summed rate of their keysets
   * rounded up to whole units.
   */
  lemma DispatchedInputsAreExact(s: Snapshot, r: Reservation, quoteAmount: nat, at: nat, inputs: seq<WireProof>)
    requires Derive(s, r, quoteAmount, at).Ok? && multiset(r.proofs) == multiset(References(inputs))
    ensures Amounts(inputs) == quoteAmount + RoundedUp(TotalPpk(s.keysets, KeysetIds(inputs)))
    ensures Derive(s, r, quoteAmount, at).value == RoundedUp(TotalPpk(s.keysets, KeysetIds(inputs)))
  {
    SumsIgnoreOrder(s.keysets, r.proofs, References(inputs));
    ReferencesKeepSums(inputs);
  }
}
