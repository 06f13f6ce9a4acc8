/**
 * The durable store of the Stellar processor (store.rs): the journalled state,
 * its five kinds of update, and the clone / persist / swap protocol that keeps
 * memory and the state file in step.
 */
module StateStores {
  import opened Outcomes
  import opened Settlements
  import StellarAmounts

  // ---------------------------------------------------------------- values

  type QuoteId = string

  datatype Claim = Claim(
    operationId: string, transactionHash: Hash, ledgerSequence: nat, ledgerClosedAt: nat)

  datatype MintQuote = MintQuote(
    quoteId: QuoteId, amount: nat, expiresAt: nat, memo: string, lockedPubkey: string, claim: Option<Claim>)

  /** `payment` is the validated SEP-7 request, compared only for equality. */
  datatype MeltQuote = MeltQuote(quoteId: QuoteId, payment: string, settlement: Value)

  datatype Journal = Journal(
    mint: map<QuoteId, MintQuote>,
    melt: map<QuoteId, MeltQuote>,
    operations: map<string, QuoteId>,
    transactions: map<Hash, QuoteId>,
    cursor: Option<nat>)

  const EmptyJournal := Journal(map[], map[], map[], map[], None)

  datatype Profile = Profile(
    passphrase: string, networkId: string, destination: string, assetCode: string, assetIssuer: string)

  datatype Payment = Payment(
    passphrase: string, networkId: string, operationId: string, cursor: nat, transactionHash: Hash,
    ledgerSequence: nat, successful: bool, ledgerClosedAt: nat, destination: string, assetCode: string,
    assetIssuer: string, amount: string, memo: Option<string>, memoType: Option<string>)

  datatype Rejection =
    | StaleCursor | UnknownCorrelation | WrongNetwork | NotFinal | WrongDestination | WrongAssetCode
    | WrongAssetIssuer | WrongAmount | Expired | ReplayedOperation(owner: QuoteId)
    | ReplayedTransaction(owner: QuoteId) | QuoteAlreadyPaid | InvalidValue

  datatype Outcome =
    | Claimed(quoteId: QuoteId, claim: Claim)
    | AlreadyClaimed(quoteId: QuoteId, claim: Claim)
    | Rejected(reason: Rejection)

  datatype StoreError =
    | QuoteConflict(quoteId: QuoteId)
    | DuplicateCorrelation
    | QuoteNotFound(quoteId: QuoteId)
    | SettlementRefused(error: Error)
    | InvalidQuote
    | Io

  // ---------------------------------------------- settlement update closures

  /** The closures that processor.rs hands to update_settlement. */
  datatype Change =
    | Transition(op: Op)
    | SubmitAndConfirm(hash: Hash)
    | ObservedPending(hash: Hash)
    | ObservedConfirmed(hash: Hash)

  function Script(v: Value, change: Change): seq<Op> {
    match change
    case Transition(op) => [op]
    case SubmitAndConfirm(h) => [OpRecordSubmission(h), OpConfirmPaid(h)]
    case ObservedPending(h) =>
      if v.state.ProofsReserved? then [OpRecordDispatchStarted, OpRecordSubmission(h)]
      else [OpRecordSubmission(h)]
    case ObservedConfirmed(h) =>
      if v.state.ProofsReserved? then [OpRecordDispatchStarted, OpRecordSubmission(h), OpConfirmPaid(h)]
      else if v.state.NeedsAttention? then [OpRecordSubmission(h), OpConfirmPaid(h)]
      else [OpConfirmPaid(h)]
  }

  function RunChange(v: Value, change: Change): Result<Value, Error> {
    Steps(v, Script(v, change))
  }

  // --------------------------------------------------------------- updates

  datatype Update =
    | InsertMint(quote: MintQuote)
    | InsertMelt(quoteId: QuoteId, request: string)
    | UpdateSettlement(quoteId: QuoteId, change: Change)
    | Observe(profile: Profile, payment: Payment)
    | Advance(cursor: nat)

  datatype Response = Done | Observed(outcome: Outcome)

  /** MintQuoteRecord::new; amounts are positive by their type. */
  function NewMintQuote(id: QuoteId, amount: nat, expiresAt: nat, memo: string, pubkey: string)
    : (r: Result<MintQuote, StoreError>)
    ensures r.Ok? ==> WellFormed(InsertMint(r.value))
  {
    if expiresAt == 0 || IsBlank(memo) || IsBlank(pubkey) then Err(InvalidQuote)
    else Ok(MintQuote(id, amount, expiresAt, memo, pubkey, None))
  }

  ghost predicate HasMemo(mint: map<QuoteId, MintQuote>, memo: string, id: QuoteId) {
    id in mint && mint[id].memo == memo
  }

  ghost function FindByMemo(mint: map<QuoteId, MintQuote>, memo: string): (r: Option<QuoteId>)
    ensures r.Some? ==> HasMemo(mint, memo, r.value)
    ensures r.None? ==> forall id :: !HasMemo(mint, memo, id)
  {
    if exists id :: HasMemo(mint, memo, id) then
      var id :| HasMemo(mint, memo, id);
      Some(id)
    else None
  }

  function ValidatePayment(quote: MintQuote, profile: Profile, payment: Payment): Option<Rejection> {
    if payment.passphrase != profile.passphrase || payment.networkId != profile.networkId then Some(WrongNetwork)
    else if !payment.successful || payment.ledgerSequence == 0 || payment.ledgerClosedAt == 0 then Some(NotFinal)
    else if payment.destination != profile.destination then Some(WrongDestination)
    else if payment.assetCode != profile.assetCode then Some(WrongAssetCode)
    else if payment.assetIssuer != profile.assetIssuer then Some(WrongAssetIssuer)
    else match StellarAmounts.Matches(quote.amount, payment.amount)
      case Err(_) => Some(InvalidValue)
      case Ok(equal) =>
        if !equal then Some(WrongAmount)
        else if payment.ledgerClosedAt > quote.expiresAt then Some(Expired)
        else None
  }

  function ClaimOf(payment: Payment): Claim {
    Claim(payment.operationId, payment.transactionHash, payment.ledgerSequence, payment.ledgerClosedAt)
  }

  ghost function Evaluate(j: Journal, profile: Profile, payment: Payment): (Journal, Outcome) {
    if payment.memo.None? then (j, Rejected(UnknownCorrelation))
    else if payment.memoType !in {Some("MEMO_HASH"), Some("hash")} then (j, Rejected(UnknownCorrelation))
    else match FindByMemo(j.mint, payment.memo.value)
      case None => (j, Rejected(UnknownCorrelation))
      case Some(id) =>
        var quote := j.mint[id];
        if quote.claim.Some? then
          if quote.claim.value.operationId == payment.operationId
             && quote.claim.value.transactionHash == payment.transactionHash
          then (j, AlreadyClaimed(id, quote.claim.value))
          else (j, Rejected(QuoteAlreadyPaid))
        else
          var rejection := ValidatePayment(quote, profile, payment);
          if rejection.Some? then (j, Rejected(rejection.value))
          else if payment.operationId in j.operations then
            (j, Rejected(ReplayedOperation(j.operations[payment.operationId])))
          else if payment.transactionHash in j.transactions then
            (j, Rejected(ReplayedTransaction(j.transactions[payment.transactionHash])))
          else
            (WithClaim(j, id, ClaimOf(payment)), Claimed(id, ClaimOf(payment)))
  }

  function WithClaim(j: Journal, id: QuoteId, claim: Claim): Journal
    requires id in j.mint
  {
    j.(mint := j.mint[id := j.mint[id].(claim := Some(claim))],
       operations := j.operations[claim.operationId := id],
       transactions := j.transactions[claim.transactionHash := id])
  }

  function StaleOutcome(j: Journal, payment: Payment): Outcome {
    if payment.operationId in j.operations then
      var id := j.operations[payment.operationId];
      if id in j.mint && j.mint[id].claim.Some?
         && j.mint[id].claim.value.transactionHash == payment.transactionHash
      then AlreadyClaimed(id, j.mint[id].claim.value)
      else Rejected(StaleCursor)
    else Rejected(StaleCursor)
  }

  predicate IsStale(j: Journal, cursor: nat) {
    j.cursor.Some? && cursor <= j.cursor.value
  }

  ghost function ObserveStep(j: Journal, profile: Profile, payment: Payment): (Journal, Outcome) {
    if IsStale(j, payment.cursor) then (j, StaleOutcome(j, payment))
    else
      var (after, outcome) := Evaluate(j, profile, payment);
      (after.(cursor := Some(payment.cursor)), outcome)
  }

  function AdvanceTo(j: Journal, cursor: nat): Journal {
    if IsStale(j, cursor) then j else j.(cursor := Some(cursor))
  }

  ghost function Apply(j: Journal, u: Update): Result<(Journal, Response), StoreError> {
    match u
    case InsertMint(quote) =>
      if exists id :: HasMemo(j.mint, quote.memo, id) && id != quote.quoteId then Err(DuplicateCorrelation)
      else if quote.quoteId !in j.mint then Ok((j.(mint := j.mint[quote.quoteId := quote]), Done))
      else if j.mint[quote.quoteId] == quote then Ok((j, Done))
      else Err(QuoteConflict(quote.quoteId))
    case InsertMelt(id, payment) =>
      if id !in j.melt then Ok((j.(melt := j.melt[id := MeltQuote(id, payment, New)]), Done))
      else if j.melt[id].payment == payment then Ok((j, Done))
      else Err(QuoteConflict(id))
    case UpdateSettlement(id, change) =>
      if id !in j.melt then Err(QuoteNotFound(id))
      else (
        match RunChange(j.melt[id].settlement, change)
        case Err(e) => Err(SettlementRefused(e))
        case Ok(after) => Ok((j.(melt := j.melt[id := j.melt[id].(settlement := after)]), Done)))
    case Observe(profile, payment) =>
      var (after, outcome) := ObserveStep(j, profile, payment);
      Ok((after, Observed(outcome)))
    case Advance(cursor) => Ok((AdvanceTo(j, cursor), Done))
  }

  /** Callers build mint quotes with NewMintQuote, so an inserted quote is unclaimed. */
  predicate WellFormed(u: Update) {
    u.InsertMint? ==> u.quote.claim.None?
  }

  // ------------------------------------------------------------ invariants

  ghost predicate QuotesConsistent(j: Journal) {
    && (forall id :: id in j.mint ==> j.mint[id].quoteId == id)
    && (forall a, b :: a in j.mint && b in j.mint && a != b ==> j.mint[a].memo != j.mint[b].memo)
    && (forall id :: id in j.melt ==> j.melt[id].quoteId == id && Valid(j.melt[id].settlement))
  }

  predicate ClaimsOperation(j: Journal, id: QuoteId, op: string) {
    id in j.mint && j.mint[id].claim.Some? && j.mint[id].claim.value.operationId == op
  }

  predicate ClaimsTransaction(j: Journal, id: QuoteId, tx: Hash) {
    id in j.mint && j.mint[id].claim.Some? && j.mint[id].claim.value.transactionHash == tx
  }

  /** Both replay indexes are exactly the inverses of the claims recorded on the quotes. */
  ghost predicate IndexesAreInverses(j: Journal) {
    && (forall op :: op in j.operations ==> ClaimsOperation(j, j.operations[op], op))
    && (forall tx :: tx in j.transactions ==> ClaimsTransaction(j, j.transactions[tx], tx))
    && (forall id, op :: ClaimsOperation(j, id, op) ==> op in j.operations && j.operations[op] == id)
    && (forall id, tx :: ClaimsTransaction(j, id, tx) ==> tx in j.transactions && j.transactions[tx] == id)
  }

  ghost predicate Consistent(j: Journal) {
    QuotesConsistent(j) && IndexesAreInverses(j)
  }

  /** One operation and one transaction fund at most one quote. */
  lemma EachPaymentFundsOneQuote(j: Journal, a: QuoteId, b: QuoteId)
    requires Consistent(j)
    requires a in j.mint && b in j.mint && j.mint[a].claim.Some? && j.mint[b].claim.Some?
    requires j.mint[a].claim.value.operationId == j.mint[b].claim.value.operationId
          || j.mint[a].claim.value.transactionHash == j.mint[b].claim.value.transactionHash
    ensures a == b
  {
    assert ClaimsOperation(j, a, j.mint[a].claim.value.operationId);
    assert ClaimsTransaction(j, a, j.mint[a].claim.value.transactionHash);
    assert ClaimsOperation(j, b, j.mint[b].claim.value.operationId);
    assert ClaimsTransaction(j, b, j.mint[b].claim.value.transactionHash);
  }

  predicate KeepsMint(before: MintQuote, after: MintQuote) {
    && after.(claim := None) == before.(claim := None)
    && (before.claim.Some? ==> after.claim == before.claim)
  }

  /** Everything a later journal must still hold of an earlier one. */
  ghost predicate Extends(a: Journal, b: Journal) {
    && (forall id :: id in a.mint ==> id in b.mint && KeepsMint(a.mint[id], b.mint[id]))
    && (forall id :: id in a.melt ==>
          id in b.melt && b.melt[id].payment == a.melt[id].payment
          && Keeps(a.melt[id].settlement, b.melt[id].settlement))
    && (forall op :: op in a.operations ==> op in b.operations && b.operations[op] == a.operations[op])
    && (forall tx :: tx in a.transactions ==> tx in b.transactions && b.transactions[tx] == a.transactions[tx])
    && (a.cursor.Some? ==> b.cursor.Some? && a.cursor.value <= b.cursor.value)
  }

  lemma ExtendsIsReflexive(j: Journal)
    ensures Extends(j, j)
  {
  }

  lemma ExtendsIsTransitive(a: Journal, b: Journal, c: Journal)
    requires Extends(a, b) && Extends(b, c)
    ensures Extends(a, c)
  {
    forall id | id in a.melt
      ensures Keeps(a.melt[id].settlement, c.melt[id].settlement)
    {
      KeepsIsTransitive(a.melt[id].settlement, b.melt[id].settlement, c.melt[id].settlement);
    }
  }

  lemma ClaimKeepsQuotes(j: Journal, id: QuoteId, claim: Claim)
    requires QuotesConsistent(j) && id in j.mint && j.mint[id].claim.None?
    requires claim.operationId !in j.operations && claim.transactionHash !in j.transactions
    ensures QuotesConsistent(WithClaim(j, id, claim)) && Extends(j, WithClaim(j, id, claim))
  {
    ClaimExtends(j, id, claim);
    hide Valid, Extends;
    var after := WithClaim(j, id, claim);
    assert forall q :: q in after.mint ==> after.mint[q].memo == j.mint[q].memo && after.mint[q].quoteId == j.mint[q].quoteId;
  }

  lemma ClaimExtends(j: Journal, id: QuoteId, claim: Claim)
    requires id in j.mint && j.mint[id].claim.None?
    requires claim.operationId !in j.operations && claim.transactionHash !in j.transactions
    ensures Extends(j, WithClaim(j, id, claim))
  {
    hide Extends;
    ExtendsFromMint(j, WithClaim(j, id, claim));
  }

  /** Extension is judged quote by quote when payouts are untouched. */
  lemma ExtendsFromMint(a: Journal, b: Journal)
    requires forall id :: id in a.mint ==> id in b.mint && KeepsMint(a.mint[id], b.mint[id])
    requires a.melt == b.melt && a.cursor == b.cursor
    requires forall op :: op in a.operations ==> op in b.operations && b.operations[op] == a.operations[op]
    requires forall tx :: tx in a.transactions ==> tx in b.transactions && b.transactions[tx] == a.transactions[tx]
    ensures Extends(a, b)
  {
  }

  lemma ClaimKeepsIndexes(j: Journal, id: QuoteId, claim: Claim)
    requires IndexesAreInverses(j) && id in j.mint && j.mint[id].claim.None?
    requires claim.operationId !in j.operations && claim.transactionHash !in j.transactions
    ensures IndexesAreInverses(WithClaim(j, id, claim))
  {
    var after := WithClaim(j, id, claim);
    forall op | op in after.operations ensures ClaimsOperation(after, after.operations[op], op) {
      if op != claim.operationId { assert ClaimsOperation(j, j.operations[op], op); }
    }
    forall tx | tx in after.transactions ensures ClaimsTransaction(after, after.transactions[tx], tx) {
      if tx != claim.transactionHash { assert ClaimsTransaction(j, j.transactions[tx], tx); }
    }
    forall q, op | ClaimsOperation(after, q, op) ensures op in after.operations && after.operations[op] == q {
      if q != id { assert ClaimsOperation(j, q, op); }
    }
    forall q, tx | ClaimsTransaction(after, q, tx) ensures tx in after.transactions && after.transactions[tx] == q {
      if q != id { assert ClaimsTransaction(j, q, tx); }
    }
  }

  lemma EvaluateKeeps(j: Journal, profile: Profile, payment: Payment)
    requires Consistent(j)
    ensures Consistent(Evaluate(j, profile, payment).0) && Extends(j, Evaluate(j, profile, payment).0)
    ensures Evaluate(j, profile, payment).0.cursor == j.cursor
  {
    hide QuotesConsistent, IndexesAreInverses, Extends, ValidatePayment;
    var (after, outcome) := Evaluate(j, profile, payment);
    if outcome.Claimed? {
      ClaimKeepsQuotes(j, outcome.quoteId, outcome.claim);
      ClaimKeepsIndexes(j, outcome.quoteId, outcome.claim);
    } else {
      ExtendsIsReflexive(j);
    }
  }

  lemma NewMintKeepsQuotes(j: Journal, quote: MintQuote)
    requires QuotesConsistent(j) && quote.claim.None? && quote.quoteId !in j.mint
    requires forall id :: HasMemo(j.mint, quote.memo, id) ==> id == quote.quoteId
    ensures QuotesConsistent(j.(mint := j.mint[quote.quoteId := quote]))
  {
    var after := j.(mint := j.mint[quote.quoteId := quote]);
    forall a, b | a in after.mint && b in after.mint && a != b
      ensures after.mint[a].memo != after.mint[b].memo
    {
      assert a in j.mint && j.mint[a].memo == quote.memo ==> HasMemo(j.mint, quote.memo, a);
      assert b in j.mint && j.mint[b].memo == quote.memo ==> HasMemo(j.mint, quote.memo, b);
    }
  }

  lemma NewMintKeepsIndexes(j: Journal, quote: MintQuote)
    requires IndexesAreInverses(j) && quote.claim.None? && quote.quoteId !in j.mint
    ensures IndexesAreInverses(j.(mint := j.mint[quote.quoteId := quote]))
  {
    var after := j.(mint := j.mint[quote.quoteId := quote]);
    forall op | op in after.operations ensures ClaimsOperation(after, after.operations[op], op) {
      assert ClaimsOperation(j, j.operations[op], op);
    }
    forall tx | tx in after.transactions ensures ClaimsTransaction(after, after.transactions[tx], tx) {
      assert ClaimsTransaction(j, j.transactions[tx], tx);
    }
    forall q, op | ClaimsOperation(after, q, op) ensures op in after.operations && after.operations[op] == q {
      assert ClaimsOperation(j, q, op);
    }
    forall q, tx | ClaimsTransaction(after, q, tx) ensures tx in after.transactions && after.transactions[tx] == q {
      assert ClaimsTransaction(j, q, tx);
    }
  }

  lemma InsertMintKeeps(j: Journal, quote: MintQuote)
    requires Consistent(j) && quote.claim.None? && Apply(j, InsertMint(quote)).Ok?
    ensures Consistent(Apply(j, InsertMint(quote)).value.0) && Extends(j, Apply(j, InsertMint(quote)).value.0)
  {
    if quote.quoteId !in j.mint {
      NewMintKeepsQuotes(j, quote);
      NewMintKeepsIndexes(j, quote);
    }
  }

  /** Deposit indexes speak only of mint quotes, so they survive any change elsewhere. */
  lemma IndexesIgnoreRest(j: Journal, after: Journal)
    requires IndexesAreInverses(j)
    requires after.mint == j.mint && after.operations == j.operations && after.transactions == j.transactions
    ensures IndexesAreInverses(after)
  {
    forall id, op | ClaimsOperation(after, id, op)
      ensures op in after.operations && after.operations[op] == id
    {
      assert ClaimsOperation(j, id, op);
    }
    forall id, tx | ClaimsTransaction(after, id, tx)
      ensures tx in after.transactions && after.transactions[tx] == id
    {
      assert ClaimsTransaction(j, id, tx);
    }
  }

  lemma SettlementKeeps(j: Journal, id: QuoteId, change: Change)
    requires Consistent(j) && Apply(j, UpdateSettlement(id, change)).Ok?
    ensures Consistent(Apply(j, UpdateSettlement(id, change)).value.0)
    ensures Extends(j, Apply(j, UpdateSettlement(id, change)).value.0)
  {
    StepsKeep(j.melt[id].settlement, Script(j.melt[id].settlement, change));
    IndexesIgnoreRest(j, Apply(j, UpdateSettlement(id, change)).value.0);
  }

  lemma InsertMeltKeeps(j: Journal, id: QuoteId, request: string)
    requires Consistent(j) && Apply(j, InsertMelt(id, request)).Ok?
    ensures Consistent(Apply(j, InsertMelt(id, request)).value.0)
    ensures Extends(j, Apply(j, InsertMelt(id, request)).value.0)
  {
    hide IndexesAreInverses;
    IndexesIgnoreRest(j, Apply(j, InsertMelt(id, request)).value.0);
  }

  lemma AdvanceKeeps(j: Journal, cursor: nat)
    requires Consistent(j)
    ensures Consistent(AdvanceTo(j, cursor)) && Extends(j, AdvanceTo(j, cursor))
  {
    hide IndexesAreInverses;
    IndexesIgnoreRest(j, AdvanceTo(j, cursor));
  }

  lemma ObserveKeeps(j: Journal, profile: Profile, payment: Payment)
    requires Consistent(j)
    ensures Consistent(ObserveStep(j, profile, payment).0) && Extends(j, ObserveStep(j, profile, payment).0)
  {
    if IsStale(j, payment.cursor) {
      ExtendsIsReflexive(j);
    } else {
      EvaluateKeeps(j, profile, payment);
      IndexesIgnoreRest(Evaluate(j, profile, payment).0, ObserveStep(j, profile, payment).0);
    }
  }

  /** Every update keeps the journal consistent and loses nothing it held. */
  lemma ApplyKeeps(j: Journal, u: Update)
    requires Consistent(j) && WellFormed(u) && Apply(j, u).Ok?
    ensures Consistent(Apply(j, u).value.0) && Extends(j, Apply(j, u).value.0)
  {
    match u
    case InsertMint(quote) => InsertMintKeeps(j, quote);
    case InsertMelt(id, request) => InsertMeltKeeps(j, id, request);
    case UpdateSettlement(id, change) => SettlementKeeps(j, id, change);
    case Observe(profile, payment) => ObserveKeeps(j, profile, payment);
    case Advance(cursor) => AdvanceKeeps(j, cursor);
  }

  // ---------------------------------------------------- deposit evaluation

  /** The order-free meaning of "this payment funds that quote now". */
  ghost predicate Funds(j: Journal, profile: Profile, payment: Payment, id: QuoteId) {
    && payment.memo.Some? && payment.memoType in {Some("MEMO_HASH"), Some("hash")}
    && HasMemo(j.mint, payment.memo.value, id)
    && j.mint[id].claim.None?
    && payment.passphrase == profile.passphrase && payment.networkId == profile.networkId
    && payment.successful && payment.ledgerSequence != 0 && payment.ledgerClosedAt != 0
    && payment.destination == profile.destination
    && payment.assetCode == profile.assetCode && payment.assetIssuer == profile.assetIssuer
    && StellarAmounts.Matches(j.mint[id].amount, payment.amount) == Ok(true)
    && payment.ledgerClosedAt <= j.mint[id].expiresAt
    && payment.operationId !in j.operations && payment.transactionHash !in j.transactions
  }

  /** A payment is claimed by a quote exactly when it is newer than the cursor and funds that quote. */
  lemma ClaimedIffFunds(j: Journal, profile: Profile, payment: Payment, id: QuoteId)
    requires Consistent(j)
    ensures ObserveStep(j, profile, payment).1 == Claimed(id, ClaimOf(payment))
            <==> !IsStale(j, payment.cursor) && Funds(j, profile, payment, id)
    ensures forall c :: ObserveStep(j, profile, payment).1 == Claimed(id, c) ==> c == ClaimOf(payment)
  {
    if payment.memo.Some? && HasMemo(j.mint, payment.memo.value, id) {
      var found := FindByMemo(j.mint, payment.memo.value);
      assert found.Some?;
      assert found.value == id;
    }
  }

  /**
   * A mint quote is taken up exactly when no other quote carries its memo and its id is new or holds the very same
   * quote; a payout exactly when its id is new or holds the same payment. Repetition changes nothing.
   */
  lemma InsertsExactlyWhenNew(j: Journal, quote: MintQuote, id: QuoteId, payment: string)
    ensures Apply(j, InsertMint(quote)).Ok?
            <==> (forall q :: HasMemo(j.mint, quote.memo, q) ==> q == quote.quoteId)
                 && (quote.quoteId in j.mint ==> j.mint[quote.quoteId] == quote)
    ensures Apply(j, InsertMint(quote)).Ok? ==>
              Apply(j, InsertMint(quote)).value.0 == j.(mint := j.mint[quote.quoteId := quote])
    ensures Apply(j, InsertMelt(id, payment)).Ok? <==> (id in j.melt ==> j.melt[id].payment == payment)
    ensures Apply(j, InsertMelt(id, payment)).Ok? ==>
              Apply(j, InsertMelt(id, payment)).value.0
              == if id in j.melt then j else j.(melt := j.melt[id := MeltQuote(id, payment, Value(Unpaid, None))])
  {
    assert quote.quoteId in j.mint && j.mint[quote.quoteId] == quote ==> j.mint[quote.quoteId := quote] == j.mint;
  }

  /** The checks on a payment that names an unclaimed quote, in their order, each with its rejection. */
  function FundingChecks(j: Journal, profile: Profile, payment: Payment, quote: MintQuote): seq<(bool, Rejection)> {
    [(payment.passphrase == profile.passphrase && payment.networkId == profile.networkId, WrongNetwork),
     (payment.successful && payment.ledgerSequence != 0 && payment.ledgerClosedAt != 0, NotFinal),
     (payment.destination == profile.destination, WrongDestination),
     (payment.assetCode == profile.assetCode, WrongAssetCode),
     (payment.assetIssuer == profile.assetIssuer, WrongAssetIssuer),
     (StellarAmounts.Matches(quote.amount, payment.amount).Ok?, InvalidValue),
     (StellarAmounts.Matches(quote.amount, payment.amount) == Ok(true), WrongAmount),
     (payment.ledgerClosedAt <= quote.expiresAt, Expired),
     (payment.operationId !in j.operations,
      ReplayedOperation(if payment.operationId in j.operations then j.operations[payment.operationId] else "")),
     (payment.transactionHash !in j.transactions,
      ReplayedTransaction(if payment.transactionHash in j.transactions then j.transactions[payment.transactionHash] else ""))]
  }

  /** The payment names this quote by its memo. */
  ghost predicate Names(j: Journal, payment: Payment, id: QuoteId) {
    payment.memo.Some? && payment.memoType in {Some("MEMO_HASH"), Some("hash")} && HasMemo(j.mint, payment.memo.value, id)
  }

  lemma NamedIsFound(j: Journal, payment: Payment, id: QuoteId)
    requires Consistent(j) && Names(j, payment, id)
    ensures FindByMemo(j.mint, payment.memo.value) == Some(id)
  {
    var found := FindByMemo(j.mint, payment.memo.value);
    assert found.Some? && found.value == id;
  }

  /**
   * Why a fresh payment is rejected: it names no quote, or one already paid by another payment, or the first of the
   * funding checks that fails. If it names an unclaimed quote and all checks pass, it is claimed.
   */
  lemma RejectedByFirstFailure(j: Journal, profile: Profile, payment: Payment, id: QuoteId)
    requires Consistent(j) && !IsStale(j, payment.cursor)
    ensures (forall q :: !Names(j, payment, q)) ==> ObserveStep(j, profile, payment).1 == Rejected(UnknownCorrelation)
    ensures Names(j, payment, id) && j.mint[id].claim.Some? ==>
              var claim := j.mint[id].claim.value;
              ObserveStep(j, profile, payment).1
              == if claim.operationId == payment.operationId && claim.transactionHash == payment.transactionHash
                 then AlreadyClaimed(id, claim) else Rejected(QuoteAlreadyPaid)
    ensures Names(j, payment, id) && j.mint[id].claim.None? ==>
              var checks, outcome := FundingChecks(j, profile, payment, j.mint[id]), ObserveStep(j, profile, payment).1;
              && (AllPass(checks) ==> outcome == Claimed(id, ClaimOf(payment)))
              && (!AllPass(checks) ==> outcome.Rejected? && FailsFirst(checks, outcome.reason))
  {
    if Names(j, payment, id) {
      NamedIsFound(j, payment, id);
      if j.mint[id].claim.None? { ChecksDecide(j, profile, payment, id); }
    } else if payment.memo.Some? {
      var found := FindByMemo(j.mint, payment.memo.value);
      if found.Some? { assert HasMemo(j.mint, payment.memo.value, found.value); }
      assert (forall q :: !Names(j, payment, q)) && payment.memoType in {Some("MEMO_HASH"), Some("hash")} && found.Some? ==>
               Names(j, payment, found.value);
    }
  }

  lemma ChecksDecide(j: Journal, profile: Profile, payment: Payment, id: QuoteId)
    requires id in j.mint && payment.memo.Some? && payment.memoType in {Some("MEMO_HASH"), Some("hash")}
    requires FindByMemo(j.mint, payment.memo.value) == Some(id) && j.mint[id].claim.None?
    ensures var checks, outcome := FundingChecks(j, profile, payment, j.mint[id]), Evaluate(j, profile, payment).1;
            && (AllPass(checks) ==> outcome == Claimed(id, ClaimOf(payment)))
            && (!AllPass(checks) ==> outcome.Rejected? && FailsFirst(checks, outcome.reason))
  {
    hide StellarAmounts.Matches;
    var checks := FundingChecks(j, profile, payment, j.mint[id]);
    if AllPass(checks) {
      assert checks[0].0 && checks[1].0 && checks[2].0 && checks[3].0 && checks[4].0;
      assert checks[5].0 && checks[6].0 && checks[7].0 && checks[8].0 && checks[9].0;
    } else {
      var k := FirstFalse(checks, 0);
      FirstFailure(checks, k);
      assert (k == 0 || checks[0].0) && (k <= 1 || checks[1].0) && (k <= 2 || checks[2].0) && (k <= 3 || checks[3].0);
      assert (k <= 4 || checks[4].0) && (k <= 5 || checks[5].0) && (k <= 6 || checks[6].0) && (k <= 7 || checks[7].0);
      assert k <= 8 || checks[8].0;
    }
  }

  /** The position of the first failing check. */
  lemma {:induction false} FirstFalse<E>(checks: seq<(bool, E)>, from: nat) returns (k: nat)
    requires !AllPass(checks) && from <= |checks| && forall i :: 0 <= i < from ==> checks[i].0
    ensures k < |checks| && !checks[k].0 && forall i :: 0 <= i < k ==> checks[i].0
    decreases |checks| - from
  {
    if from < |checks| && checks[from].0 { k := FirstFalse(checks, from + 1); } else { k := from; }
  }

  /** A payment at or below the cursor is only ever answered from its own stored claim. */
  lemma StaleIsOnlyReplayed(j: Journal, profile: Profile, payment: Payment)
    requires Consistent(j) && IsStale(j, payment.cursor)
    ensures ObserveStep(j, profile, payment).0 == j
    ensures (forall id :: !(ClaimsOperation(j, id, payment.operationId) && ClaimsTransaction(j, id, payment.transactionHash))) ==>
              ObserveStep(j, profile, payment).1 == Rejected(StaleCursor)
  {
    if payment.operationId in j.operations {
      var id := j.operations[payment.operationId];
      assert ClaimsOperation(j, id, payment.operationId);
      assert !ClaimsTransaction(j, id, payment.transactionHash) ==> StaleOutcome(j, payment) == Rejected(StaleCursor);
    }
  }

  /** The claim is visible on the quote afterwards, and the cursor covers the payment. */
  lemma ReportedClaimIsRecorded(j: Journal, profile: Profile, payment: Payment)
    requires Consistent(j)
    requires !ObserveStep(j, profile, payment).1.Rejected?
    ensures var (after, outcome) := ObserveStep(j, profile, payment);
            && outcome.quoteId in after.mint && after.mint[outcome.quoteId].claim == Some(outcome.claim)
            && outcome.claim.operationId == payment.operationId
            && outcome.claim.transactionHash == payment.transactionHash
            && IsStale(after, payment.cursor)
  {
    if IsStale(j, payment.cursor) {
      assert ClaimsOperation(j, j.operations[payment.operationId], payment.operationId);
    }
  }

  /** Redelivery of a claimed payment at or below the cursor reports the same claim and changes nothing. */
  lemma RedeliveryIsIdempotent(j: Journal, profile: Profile, payment: Payment, id: QuoteId, claim: Claim)
    requires Consistent(j) && IsStale(j, payment.cursor)
    requires id in j.mint && j.mint[id].claim == Some(claim)
    requires claim.operationId == payment.operationId && claim.transactionHash == payment.transactionHash
    ensures ObserveStep(j, profile, payment) == (j, AlreadyClaimed(id, claim))
  {
    assert ClaimsOperation(j, id, payment.operationId);
  }

  // ------------------------------------------------------ the journal file

  /** What persist_atomically can do: replace and sync, fail before the rename, or fail after it. */
  datatype Persist = Persisted | FailedBeforeReplace | FailedAfterReplace

  /** `mem` is the state behind the mutex, `disk` what the next open would read. */
  datatype Store = Store(mem: Journal, disk: Journal)

  datatype Event = Call(update: Update, persist: Persist) | Crash

  ghost function Commit(s: Store, u: Update, p: Persist): (Store, Result<Response, StoreError>) {
    match Apply(s.mem, u)
    case Err(e) => (s, Err(e))
    case Ok((next, response)) =>
      match p
      case Persisted => (Store(next, next), Ok(response))
      case FailedBeforeReplace => (s, Err(Io))
      case FailedAfterReplace => (s.(disk := next), Err(Io))
  }

  ghost function After(s: Store, e: Event): Store {
    match e
    case Call(u, p) => Commit(s, u, p).0
    case Crash => Store(s.disk, s.disk)
  }

  ghost predicate IsRun(trace: seq<Store>, events: seq<Event>) {
    && |trace| == |events| + 1
    && trace[0] == Store(EmptyJournal, EmptyJournal)
    && forall i :: 0 <= i < |events| ==>
         (events[i].Call? ==> WellFormed(events[i].update)) && trace[i + 1] == After(trace[i], events[i])
  }

  /** The file holds the state in memory, or that state advanced by one legal update. */
  ghost predicate AtMostOneAhead(s: Store) {
    s.disk == s.mem
    || exists u :: WellFormed(u) && Apply(s.mem, u).Ok? && s.disk == Apply(s.mem, u).value.0
  }

  ghost predicate StoreInvariant(s: Store) {
    Consistent(s.mem) && Consistent(s.disk) && Extends(s.mem, s.disk) && AtMostOneAhead(s)
  }

  lemma FileExtendsMemory(s: Store)
    requires StoreInvariant(s)
    ensures Extends(s.mem, s.disk)
  {
  }

  lemma AfterKeeps(s: Store, e: Event)
    requires StoreInvariant(s) && (e.Call? ==> WellFormed(e.update))
    ensures StoreInvariant(After(s, e))
    ensures Extends(s.mem, After(s, e).mem)
  {
    hide Extends, Consistent, Apply;
    ExtendsIsReflexive(s.mem);
    if e.Call? && Apply(s.mem, e.update).Ok? {
      ApplyKeeps(s.mem, e.update);
      ExtendsIsReflexive(After(s, e).mem);
    }
    ExtendsIsReflexive(s.disk);
  }

  lemma {:induction false} RunKeepsInvariant(trace: seq<Store>, events: seq<Event>, i: nat)
    requires IsRun(trace, events) && i < |trace|
    ensures StoreInvariant(trace[i])
  {
    hide After;
    if i > 0 {
      RunKeepsInvariant(trace, events, i - 1);
      AfterKeeps(trace[i - 1], events[i - 1]);
    }
  }

  /**
   * Whatever memory ever held is kept by every later memory and every later file,
   * over any sequence of calls, persistence failures, crashes and reopenings.
   */
  lemma {:induction false} MemoryIsNeverForgotten(trace: seq<Store>, events: seq<Event>, i: nat, j: nat)
    requires IsRun(trace, events) && i <= j < |trace|
    ensures StoreInvariant(trace[j])
    ensures Extends(trace[i].mem, trace[j].mem) && Extends(trace[i].mem, trace[j].disk)
    decreases j
  {
    hide Extends, StoreInvariant;
    RunKeepsInvariant(trace, events, j);
    FileExtendsMemory(trace[j]);
    if i == j {
      ExtendsIsReflexive(trace[i].mem);
    } else {
      RunKeepsInvariant(trace, events, j - 1);
      MemoryIsNeverForgotten(trace, events, i, j - 1);
      AfterKeeps(trace[j - 1], events[j - 1]);
      ExtendsIsTransitive(trace[i].mem, trace[j - 1].mem, trace[j].mem);
      ExtendsIsTransitive(trace[i].mem, trace[j].mem, trace[j].disk);
    }
  }

  /**
   * Once a call has reported a claim, every later delivery of that payment, after any further calls
   * and crashes, reports AlreadyClaimed with the same quote and claim and leaves memory unchanged.
   */
  lemma ReportedClaimIsForever(trace: seq<Store>, events: seq<Event>, i: nat, j: nat,
                               profile: Profile, again: Payment)
    requires IsRun(trace, events) && i < j < |trace|
    requires events[i].Call? && events[i].update.Observe?
    requires var r := Commit(trace[i], events[i].update, events[i].persist).1;
             r.Ok? && !r.value.outcome.Rejected?
    requires again.operationId == events[i].update.payment.operationId
    requires again.transactionHash == events[i].update.payment.transactionHash
    requires again.cursor <= events[i].update.payment.cursor
    ensures var outcome := Commit(trace[i], events[i].update, events[i].persist).1.value.outcome;
            Apply(trace[j].mem, Observe(profile, again))
            == Ok((trace[j].mem, Observed(AlreadyClaimed(outcome.quoteId, outcome.claim))))
  {
    RunKeepsInvariant(trace, events, i);
    var first := events[i].update;
    ReportedClaimIsRecorded(trace[i].mem, first.profile, first.payment);
    MemoryIsNeverForgotten(trace, events, i + 1, j);
    var outcome := ObserveStep(trace[i].mem, first.profile, first.payment).1;
    RedeliveryIsIdempotent(trace[j].mem, profile, again, outcome.quoteId, outcome.claim);
  }

  /** A reported settlement change survives: its signed transaction, dispatch intent and terminal result. */
  lemma ReportedSettlementIsForever(trace: seq<Store>, events: seq<Event>, i: nat, j: nat)
    requires IsRun(trace, events) && i < j < |trace|
    requires events[i].Call? && events[i].update.UpdateSettlement?
    requires Commit(trace[i], events[i].update, events[i].persist).1.Ok?
    ensures var id := events[i].update.quoteId;
            && id in trace[i].mem.melt
            && RunChange(trace[i].mem.melt[id].settlement, events[i].update.change).Ok?
            && var reported := RunChange(trace[i].mem.melt[id].settlement, events[i].update.change).value;
               && id in trace[j].mem.melt && Keeps(reported, trace[j].mem.melt[id].settlement)
               && id in trace[j].disk.melt && Keeps(reported, trace[j].disk.melt[id].settlement)
  {
    MemoryIsNeverForgotten(trace, events, i + 1, j);
  }

  // ------------------------------------------------------------- the class

  /** StateStore: `state` is guarded by the mutex, `file` is the state journal on disk. */
  class StateStore {
    var state: Journal
    var file: Journal

    ghost function Contents(): Store
      reads this
    {
      Store(state, file)
    }

    /** StateStore::open on a journal of the supported version, or on no file at all. */
    constructor (journal: Journal)
      ensures Contents() == Store(journal, journal)
    {
      state, file := journal, journal;
    }

    method PersistAtomically(next: Journal, persist: Persist) returns (ok: bool)
      modifies this`file
      ensures ok == (persist == Persisted)
      ensures file == if persist == FailedBeforeReplace then old(file) else next
    {
      if persist == FailedBeforeReplace {
        return false;
      }
      file := next;
      return persist == Persisted;
    }

    method FindQuoteByMemo(memo: string) returns (found: Option<QuoteId>)
      requires QuotesConsistent(state)
      ensures found == FindByMemo(state.mint, memo)
    {
      var remaining := state.mint.Keys;
      while remaining != {}
        invariant remaining <= state.mint.Keys
        invariant forall id :: id in state.mint && id !in remaining ==> state.mint[id].memo != memo
      {
        var id :| id in remaining;
        if state.mint[id].memo == memo {
          assert HasMemo(state.mint, memo, id);
          return Some(id);
        }
        remaining := remaining - {id};
      }
      return None;
    }

    method InsertMintQuote(quote: MintQuote, persist: Persist) returns (result: Result<Response, StoreError>)
      requires Consistent(state)
      modifies this
      ensures (Contents(), result) == Commit(old(Contents()), InsertMint(quote), persist)
    {
      var remaining := state.mint.Keys;
      while remaining != {}
        invariant remaining <= state.mint.Keys
        invariant forall id :: HasMemo(state.mint, quote.memo, id) && id !in remaining ==> id == quote.quoteId
      {
        var id :| id in remaining;
        if id != quote.quoteId && state.mint[id].memo == quote.memo {
          assert HasMemo(state.mint, quote.memo, id);
          return Err(DuplicateCorrelation);
        }
        remaining := remaining - {id};
      }
      var next := state;
      if quote.quoteId in state.mint {
        if state.mint[quote.quoteId] != quote {
          return Err(QuoteConflict(quote.quoteId));
        }
      } else {
        next := next.(mint := next.mint[quote.quoteId := quote]);
      }
      var ok := PersistAtomically(next, persist);
      if !ok {
        return Err(Io);
      }
      state := next;
      return Ok(Done);
    }

    method InsertMeltQuote(id: QuoteId, payment: string, persist: Persist)
      returns (result: Result<Response, StoreError>)
      modifies this
      ensures (Contents(), result) == Commit(old(Contents()), InsertMelt(id, payment), persist)
    {
      var next := state;
      if id in state.melt {
        if state.melt[id].payment != payment {
          return Err(QuoteConflict(id));
        }
      } else {
        next := next.(melt := next.melt[id := MeltQuote(id, payment, New)]);
      }
      var ok := PersistAtomically(next, persist);
      if !ok {
        return Err(Io);
      }
      state := next;
      return Ok(Done);
    }

    /** The closure runs on the clone; an error drops the clone together with its partial changes. */
    method UpdateSettlement(id: QuoteId, change: Change, persist: Persist)
      returns (result: Result<Response, StoreError>)
      modifies this
      ensures (Contents(), result) == Commit(old(Contents()), Update.UpdateSettlement(id, change), persist)
    {
      if id !in state.melt {
        return Err(QuoteNotFound(id));
      }
      var script := Script(state.melt[id].settlement, change);
      var settlement := state.melt[id].settlement;
      var done := 0;
      while done < |script|
        invariant 0 <= done <= |script|
        invariant Steps(settlement, script[done..]) == RunChange(state.melt[id].settlement, change)
      {
        var stepped := Step(settlement, script[done]);
        assert script[done..][1..] == script[done + 1..];
        if stepped.Err? {
          return Err(SettlementRefused(stepped.error));
        }
        settlement, done := stepped.value, done + 1;
      }
      var next := state.(melt := state.melt[id := state.melt[id].(settlement := settlement)]);
      var ok := PersistAtomically(next, persist);
      if !ok {
        return Err(Io);
      }
      state := next;
      return Ok(Done);
    }

    method EvaluatePayment(profile: Profile, payment: Payment) returns (next: Journal, outcome: Outcome)
      requires Consistent(state)
      ensures (next, outcome) == Evaluate(state, profile, payment)
    {
      next := state;
      if payment.memo.None? || payment.memoType !in {Some("MEMO_HASH"), Some("hash")} {
        return next, Rejected(UnknownCorrelation);
      }
      var found := FindQuoteByMemo(payment.memo.value);
      if found.None? {
        return next, Rejected(UnknownCorrelation);
      }
      var id := found.value;
      var claim := next.mint[id].claim;
      if claim.Some? {
        if claim.value.operationId == payment.operationId
           && claim.value.transactionHash == payment.transactionHash {
          return next, AlreadyClaimed(id, claim.value);
        }
        return next, Rejected(QuoteAlreadyPaid);
      }
      var rejection := ValidatePayment(next.mint[id], profile, payment);
      if rejection.Some? {
        return next, Rejected(rejection.value);
      }
      if payment.operationId in next.operations {
        return next, Rejected(ReplayedOperation(next.operations[payment.operationId]));
      }
      if payment.transactionHash in next.transactions {
        return next, Rejected(ReplayedTransaction(next.transactions[payment.transactionHash]));
      }
      next := next.(mint := next.mint[id := next.mint[id].(claim := Some(ClaimOf(payment)))]);
      next := next.(operations := next.operations[payment.operationId := id]);
      next := next.(transactions := next.transactions[payment.transactionHash := id]);
      return next, Claimed(id, ClaimOf(payment));
    }

    method ObservePayment(profile: Profile, payment: Payment, persist: Persist)
      returns (result: Result<Response, StoreError>)
      requires Consistent(state)
      modifies this
      ensures (Contents(), result) == Commit(old(Contents()), Observe(profile, payment), persist)
    {
      var next, outcome;
      if IsStale(state, payment.cursor) {
        next, outcome := state, StaleOutcome(state, payment);
      } else {
        next, outcome := EvaluatePayment(profile, payment);
        next := next.(cursor := Some(payment.cursor));
      }
      var ok := PersistAtomically(next, persist);
      if !ok {
        return Err(Io);
      }
      state := next;
      return Ok(Observed(outcome));
    }

    method AdvanceCursor(cursor: nat, persist: Persist) returns (result: Result<Response, StoreError>)
      modifies this
      ensures (Contents(), result) == Commit(old(Contents()), Advance(cursor), persist)
      ensures result.Ok? ==>
                state == old(state).(cursor := Some(if old(state).cursor.Some? && old(state).cursor.value > cursor
                                                    then old(state).cursor.value else cursor))
    {
      var next := state;
      if state.cursor.None? || cursor > state.cursor.value {
        next := next.(cursor := Some(cursor));
      }
      var ok := PersistAtomically(next, persist);
      if !ok {
        return Err(Io);
      }
      state := next;
      return Ok(Done);
    }
  }
}
