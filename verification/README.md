# CashMesh settlement: verified model

A Dafny model of the two protocols in this repository that move money out of
it, and of the arithmetic and codecs they lean on. Both protocols promise the
same thing: an external payment effect happens at most once, is never
forgotten, and is undone only on proof that it cannot have happened.

**The Stellar settlement crate.** `Settlement.dfy` is the six-state settlement
machine. `StateStore.dfy` is the journalled store, with a crash or a failure
possible before and after the file is replaced. `Payouts.dfy` interleaves any
number of payout drives and checks over that store and a payout network;
`DepositScan.dfy` interleaves any number of deposit scanners over an ordered
ledger log. `SoloDrives.dfy` runs one drive on its own, `PayoutResults.dfy`
says what it comes to, and `Processor.dfy` holds the processor's own methods.

**The melt lifecycle of the acquirer.** `MeltRecords.dfy` has the rows and the
checks that read them back, `MeltStore.dfy` every repository operation as one
transaction on tables. `MeltRows`, `MeltInvariants` and `MeltCalls` prove that
each transaction keeps one invariant (`Sound`); `MeltTheorems`,
`MeltReleases`, `MeltAccounting` and `MeltResults` draw the results for every
run; `MeltAcceptance` and `MeltCommits` say exactly when each call commits;
`MeltWitness` holds two concrete runs. `ProofHistory.dfy` is the proof-state
history. `MeltCoordination.dfy` interleaves dispatchers and recoveries;
`SoloRuns.dfy` runs one of them on its own, and `DispatchResults.dfy` and
`RecoveryResults.dfy` say what it comes to. `RecoveryJobs.dfy`,
`RecoveryCommits.dfy` and `RecoveryWorkers.dfy` are the leased job queue and
its workers. `AcquirerDatabase`, `LifecycleRepository`, `QuoteRepository`,
`ReservationRepository`, `RecoveryRepository` and `Coordinators` are the same
code in its imperative form, method by method, each proved to do what the
specification does.

**Arithmetic and codecs.** `StellarAmounts.dfy` (decimal amounts, written once
in Rust and once in TypeScript), `Strkey.dfy` (SEP-0023 addresses, RFC 4648
base 32, CRC-16/XMODEM), `Ledger.dfy` (journal entries and invoice
acceptance), `InputFees.dfy` (the Cashu input fee of NUT-02, computed twice).

Runs are sequences of states in which each step is one atomic store access,
one transaction, one call to the outside or one crash. Results are stated of
every run, or of every `Sound` state where a result is about one call;
`MeltCalls.RunIsSound` shows that every run has only such states.

## Where the code does not keep its promise

- **Reading back a payment.** `observe` accepts an operator answer carrying the
  second of the dispatch, and the dispatch coordinator lets it through
  (`cashu-stellar-melt-coordinator.ts:280-287` refuses only earlier ones). The
  reader then takes that answer for the quote seen at dispatch, finds it is not
  UNPAID and refuses the payment, in every later transaction. The lemmas
  `SameSecondAnswerBreaksReading` and `SameSecondAnswerIsReachable` exhibit
  it, `ReadabilityLostOnlyByEarlySighting` and `ReadableExactlyWhen` give the
  exact condition, and `EveryWriteIsReadBack` proves the promise under it.
- **Release after a rejected swap** checks the cited snapshot and not the
  latest one (`SwapReleasesExactlyWhenAllowed`), so it can undo a payment whose
  proofs a later snapshot shows SPENT; `SwapReleasedThoughSpent` is such a run.
  A committed release is free of SPENT evidence exactly when the latest
  snapshot is (`SwapReleaseIsUnspentIffLatestIs`), as a caller who cites the
  latest one makes sure of. Release after expiry does check.

The two decimal matchers differ only above floor((2^64-1)/100000) cents
(`MatchersAgreeExactlyInRange`). Melt requests are capped at 25,000 cents
before any amount is matched (`stellar-melt-quote.ts:19` and `:161`), so on
every admitted amount they agree (`AdmittedAmountsAgree`).

## Model

| member | source | states |
|---|---|---|
| Settlements.StepsKeep | crates/stellar-settlement/src/settlement.rs:115-391 | Any chain of settlement transitions keeps the state valid; the prepared hash and envelope, the dispatch mark and a terminal state never change, and the state rank never falls. |
| Settlements.UnobservedFailureIffNotDispatched | crates/stellar-settlement/src/settlement.rs:281-304 | From a live reserved state, failing without an observed final failure is possible exactly while dispatch has not started, and then no submission or confirmation is accepted either. |
| Settlements.PaidOnlyByMatchingConfirmation | crates/stellar-settlement/src/settlement.rs:243-274 | Paid is reached only by confirming, after dispatch, the very hash that was prepared. |
| Settlements.TransitionsByPhase | crates/stellar-settlement/src/settlement.rs:115-391 | Every transition succeeds exactly in its phase (reserved, prepared, dispatched under the one hash, terminal) and leads to the stated value. |
| Settlements.CanonicalHashParsesToItself | crates/stellar-settlement/src/types.rs:72-78 | A stored transaction hash is canonical: parsing it again gives it back. |
| Settlements.Settlement.constructor | crates/stellar-settlement/src/settlement.rs:85-93 | A new settlement is Unpaid, with nothing prepared. |
| Settlements.Settlement.ReserveProofs | crates/stellar-settlement/src/settlement.rs:115-124 | Unpaid becomes ProofsReserved; every other state refuses. The new field values are those of the transition function that StepsKeep speaks about. |
| Settlements.Settlement.RecordPreparedTransaction | crates/stellar-settlement/src/settlement.rs:131-165 | One transaction per settlement: the same hash and envelope replays, any other is refused. The new field values are those of the transition function that StepsKeep speaks about. |
| Settlements.Settlement.RecordDispatchStarted | crates/stellar-settlement/src/settlement.rs:172-182 | Marks dispatch of the prepared transaction while it is still reserved or under attention. The new field values are those of the transition function that StepsKeep speaks about. |
| Settlements.Settlement.RecordSubmission | crates/stellar-settlement/src/settlement.rs:189-236 | Moves to Submitted only for the prepared, dispatched hash; a mismatch changes nothing. The new field values are those of the transition function that StepsKeep speaks about. |
| Settlements.Settlement.ConfirmPaid | crates/stellar-settlement/src/settlement.rs:243-274 | Moves to Paid only for the prepared, dispatched hash. The new field values are those of the transition function that StepsKeep speaks about. |
| Settlements.Settlement.RecordProvableFailure | crates/stellar-settlement/src/settlement.rs:281-304 | Fails only before dispatch. The new field values are those of the transition function that StepsKeep speaks about. |
| Settlements.Settlement.RecordDispatchRejected | crates/stellar-settlement/src/settlement.rs:311-329 | Fails after dispatch on an authoritative rejection. The new field values are those of the transition function that StepsKeep speaks about. |
| Settlements.Settlement.RecordObservedFailure | crates/stellar-settlement/src/settlement.rs:336-362 | Fails on an observed final failure of the prepared hash. The new field values are those of the transition function that StepsKeep speaks about. |
| Settlements.Settlement.RequireAttention | crates/stellar-settlement/src/settlement.rs:369-391 | Moves a dispatched settlement to NeedsAttention. The new field values are those of the transition function that StepsKeep speaks about. |
| StateStores.ApplyKeeps | crates/stellar-settlement/src/store.rs:296-422 | Every legal update keeps the journal consistent (indexes inverse to claims, memos unique) and keeps everything an earlier journal recorded. |
| StateStores.EachPaymentFundsOneQuote | crates/stellar-settlement/src/store.rs:443-512 | One operation and one transaction fund at most one mint quote. |
| StateStores.ClaimedIffFunds | crates/stellar-settlement/src/store.rs:379-548 | A payment is claimed by a quote if and only if it is newer than the cursor and meets every funding condition of that quote. |
| StateStores.RejectedByFirstFailure | crates/stellar-settlement/src/store.rs:443-548 | A fresh payment is rejected because it names no quote, or one already paid otherwise, or by the first funding check that fails in the source's order; if all pass it is claimed. |
| StateStores.StaleIsOnlyReplayed | crates/stellar-settlement/src/store.rs:424-441 | A payment at or below the cursor changes nothing and, unless one quote's claim carries both its operation and its transaction, is rejected as stale. |
| StateStores.InsertsExactlyWhenNew | crates/stellar-settlement/src/store.rs:296-329 | A mint or melt quote is taken up exactly when it is new (its memo too) or repeats the stored one; repetition changes nothing. |
| StateStores.RedeliveryIsIdempotent | crates/stellar-settlement/src/store.rs:424-441 | Redelivery of a claimed payment at or below the cursor reports the same claim and changes nothing. |
| StateStores.RunKeepsInvariant | crates/stellar-settlement/src/store.rs:411-422 | Over any calls, persistence failures and crashes: both copies are consistent, and the file equals memory or memory advanced by one legal update. |
| StateStores.MemoryIsNeverForgotten | crates/stellar-settlement/src/store.rs:258-422 | Whatever memory ever held is kept by every later memory and every later file. |
| StateStores.ReportedClaimIsForever | crates/stellar-settlement/src/store.rs:379-441 | Once a call reported a claim, every later delivery after any calls and crashes reports AlreadyClaimed with the same quote and claim and leaves the state unchanged. |
| StateStores.ReportedSettlementIsForever | crates/stellar-settlement/src/store.rs:360-422 | A reported settlement change (prepared hash, dispatch mark, terminal result) still holds in memory and file after any later crash and reopen. |
| StateStores.StateStore.PersistAtomically | crates/stellar-settlement/src/store.rs:550-590 | The file is replaced or untouched; when syncing the directory fails after the rename it is replaced and the call still fails. |
| StateStores.StateStore.FindQuoteByMemo | crates/stellar-settlement/src/store.rs:443-470 | The loop over the quotes finds the one that carries the memo, if any does. |
| StateStores.StateStore.InsertMintQuote | crates/stellar-settlement/src/store.rs:296-313 | Clone, persist, swap: memory, file and answer are those of the journal specification for every persistence outcome. |
| StateStores.StateStore.InsertMeltQuote | crates/stellar-settlement/src/store.rs:320-329 | As above for a melt quote; a different payment under one id is refused. |
| StateStores.StateStore.UpdateSettlement | crates/stellar-settlement/src/store.rs:360-372 | The closure runs transition by transition on the clone; an error drops the clone with its partial changes. |
| StateStores.StateStore.EvaluatePayment | crates/stellar-settlement/src/store.rs:443-512 | The checks in their order produce exactly the specified claim or rejection and the specified three map writes. |
| StateStores.StateStore.ObservePayment | crates/stellar-settlement/src/store.rs:379-395 | Evaluates a payment above the cursor once and moves the cursor to it; a stale one only replays. |
| StateStores.StateStore.AdvanceCursor | crates/stellar-settlement/src/store.rs:402-409 | The cursor never moves back. |
| Payouts.OneEnvelopePerQuote | crates/stellar-settlement/src/processor.rs:253-379 | Over every interleaving of drives, checks, cancellations, crashes and reopenings, all submissions of one quote carry one hash and one envelope. |
| Payouts.IntentIsDurableBeforeSubmission | crates/stellar-settlement/src/processor.rs:302-345 | Before a submission, hash, envelope and dispatch mark are already in memory and in the file. |
| Payouts.NetworkPaysAtMostOnce | crates/stellar-settlement/src/processor.rs:253-437 | The network confirms at most one transaction for a quote. |
| Payouts.FailedIsNeverConfirmed | crates/stellar-settlement/src/processor.rs:333-437 | A quote once Failed stays so, and no transaction signed for it is ever confirmed, whatever stale observations other drivers carry. |
| Payouts.PaidIsConfirmedForever | crates/stellar-settlement/src/processor.rs:333-437 | A Paid hash is the prepared one, was dispatched and is confirmed; Paid never changes, in memory or in the file. |
| PayoutResults.ObservationSettles | crates/stellar-settlement/src/processor.rs:399-437 | What an observation makes of any prepared settlement: Confirmed of its hash ends in Paid unless Failed, ProvablyFailed in Failed with the reason while live, Pending in Submitted while live, anything else changes nothing. |
| PayoutResults.SubmissionSettles | crates/stellar-settlement/src/processor.rs:345-379 | After a marked dispatch: Accepted ends in Submitted, SubmitConfirmed in Paid, ProvablyRejected in Failed with its reason, Ambiguous and an error in NeedsAttention. |
| PayoutResults.DriveIsDetermined | crates/stellar-settlement/src/processor.rs:253-379 | One whole drive with its writes succeeding leaves exactly the settlement of the table over state, signature, observation and submission answer, and has sent exactly the prepared envelope when nothing was found, or nothing. |
| PayoutResults.ReconciliationIsDetermined | crates/stellar-settlement/src/processor.rs:381-437 | A reconciliation leaves exactly what the observation makes of the settlement, and sends nothing. |
| PayoutResults.CheckIsDetermined | crates/stellar-settlement/src/processor.rs:639-655 | A check reconciles exactly a live prepared payout. |
| Processors.StellarPaymentProcessor.DriveSettlement | crates/stellar-settlement/src/processor.rs:253-300 | One uninterrupted drive performs the payout system's steps in order, for every answer of rail and disk; with its writes succeeding, the settlement it leaves and the envelope it sends are those of the table. |
| Processors.StellarPaymentProcessor.PrepareAndDispatch | crates/stellar-settlement/src/processor.rs:302-331 | Preparation, record, reload and observation before dispatch; with its writes succeeding, the outcome is that of the table. |
| Processors.StellarPaymentProcessor.DispatchPrepared | crates/stellar-settlement/src/processor.rs:333-379 | The dispatch mark is written before the envelope goes out; without it nothing is sent. |
| Processors.StellarPaymentProcessor.ReconcileSettlement | crates/stellar-settlement/src/processor.rs:381-397 | Observes the prepared hash and leaves what the observation makes of the settlement; nothing is sent. |
| Processors.StellarPaymentProcessor.CheckOutgoingPayment | crates/stellar-settlement/src/processor.rs:639-655 | Reads, and reconciles exactly a live prepared payout. |
| SoloDrives.StepAloneIsAMove | crates/stellar-settlement/src/processor.rs:253-437 | Each step of an uninterrupted drive is a step of the interleaved system. |
| Processors.StellarPaymentProcessor.ScanDeposits | crates/stellar-settlement/src/processor.rs:235-251 | The loop observes the page's payments in order, then advances the cursor; the first error ends it. With its writes succeeding every payment is observed and the cursor covers the page. |
| Processors.ScanIsDelivery | crates/stellar-settlement/src/processor.rs:235-251 | One scan is a sequence of Deliver steps of the interleaved scanning system. |
| Processors.CompleteScanCoversItsPage | crates/stellar-settlement/src/processor.rs:235-251 | A scan whose writes succeed leaves the payments observed one after another and the cursor at or beyond its page. |
| DepositScan.ScanningIsOnePass | crates/stellar-settlement/src/processor.rs:235-251 | Any number of scanners over overlapping pages, with retries and crashes, leave in memory and file what one left-to-right pass leaves: every record up to the durable cursor evaluated once, none skipped, with the quotes created in the order and between the records in which the run created them. |
| DepositScan.ScanningFixedQuotes | crates/stellar-settlement/src/store.rs:379-409 | When memory took up no new quote, the claims are exactly those of the plain pass over the log up to the cursor. |
| DepositScan.ScanningIsConfluent | crates/stellar-settlement/src/processor.rs:235-251 | Two runs over one ledger that created the same quotes at the same cursors agree whenever their cursors agree. |
| StellarAmounts.BothMatchersAgree | packages/cashu/src/stellar-melt-quote.ts:398-414 | For every string, the Rust and TypeScript matchers agree on every amount up to floor((2^64-1)/100000); above it Rust always reports an overflow. |
| StellarAmounts.MatchersAgreeExactlyInRange | packages/cashu/src/stellar-melt-quote.ts:398-414 | The two matchers agree on an amount for every string if and only if it is at most floor((2^64-1)/100000). |
| StellarAmounts.RenderedAmountMatches | packages/cashu/src/stellar-melt-quote.ts:398-414 | The TypeScript matcher accepts the rendering of every amount, however large. |
| StellarAmounts.ParseAgreesWithPattern | crates/stellar-settlement/src/types.rs:237-271 | The Rust parser accepts exactly the strings of the TypeScript pattern whose exact value fits 64 bits, with that value. |
| StellarAmounts.DecimalRoundTrip | crates/stellar-settlement/src/types.rs:191-211 | Rendering and parsing back is the identity exactly for 1 <= x <= floor((2^64-1)/100000); above it parsing overflows. |
| StellarAmounts.MatchesIffParsesTo | crates/stellar-settlement/src/types.rs:200-220 | Comparing with an amount and parsing to that amount are the same relation. |
| Strkey.DecodeBase32 | packages/cashu/src/stellar-melt-quote.ts:346-367 | The shifting buffer loop yields the byte layout of RFC 4648 base 32, and refuses nonzero leftover bits. |
| Strkey.Crc16Xmodem | packages/cashu/src/stellar-melt-quote.ts:369-378 | The bit loop computes the CRC-16/XMODEM register. |
| Strkey.IsValidStellarDestination | packages/cashu/src/stellar-melt-quote.ts:323-344 | Pattern, length, version byte and checksum, for G and M addresses. |
| Strkey.ValidIffCanonicalEncoding | packages/cashu/src/stellar-melt-quote.ts:323-378 | A string is valid if and only if it is the canonical encoding of a checksummed account or muxed payload. |
| Strkey.ValidDestinationReencodes | packages/cashu/src/stellar-melt-quote.ts:346-367 | Re-encoding the decoded bytes of a valid destination gives back the string. |
| Strkey.OneCharacterChangeIsDetected | packages/cashu/src/stellar-melt-quote.ts:323-378 | Replacing any one character by any other, in either form and at any position, gives an invalid destination. |
| Ledger.CreateJournalEntry | packages/domain/src/ledger.ts:144-203 | The accumulating loop returns the entry or the first error of the specification. |
| Ledger.AcceptedEntryIsASplit | packages/domain/src/ledger.ts:306-341 | An accepted entry is, up to order, one asset debit of the gross, one merchant credit of the net and at most one fee credit, and net plus fee is the gross. |
| Ledger.PaymentJournalIsAlwaysValid | packages/domain/src/ledger.ts:205-242 | The journal of an invoice payment passes entry validation exactly when the account fits the mode and the fee is below the gross. |
| Ledger.AcceptanceCondition | packages/domain/src/invoice.ts:123-175 | An open invoice accepts a payment exactly under the listed time, account and fee conditions, and then the paid time, the amounts, the journal entry and its balanced totals are fixed. |
| Ledger.AssertJournalBatchUnique | packages/domain/src/ledger.ts:244-268 | The set-filling loop reports a duplicate exactly when two entries share an id, invoice or payment, and names what the first repeating entry repeats. |
| ProofHistory.GuardIsExact | services/acquirer-api/src/postgres-cashu-proof-state-repository.ts:492-535 | An insertion at any time, late or early, is refused exactly when it would make some proof regress from SPENT. |
| ProofHistory.PersistKeepsHistory | services/acquirer-api/src/postgres-cashu-proof-state-repository.ts:458-490 | So the stored-history check never fires on a history this repository built. |
| ProofHistory.AcceptedIffCompatible | services/acquirer-api/src/postgres-cashu-proof-state-repository.ts:169-245 | Observations at distinct times are accepted in full exactly when they are pairwise compatible. |
| ProofHistory.ArrivalOrderIsIrrelevant | services/acquirer-api/src/postgres-cashu-proof-state-repository.ts:169-245 | Every arrival order of one family gives the same acceptance and the same history. |
| ProofHistory.LatestUnspentMeansNeverSpent | services/acquirer-api/src/postgres-cashu-proof-state-repository.ts:458-535 | When the latest observation is all UNSPENT, no proof was ever seen SPENT. |
| MeltCalls.RunIsSound | services/acquirer-api/src/postgres-cashu-proof-reservation-lifecycle-repository.ts:350-1140 | Every state of every run of the repository calls satisfies the table invariant (rows, claims, journals, keys). |
| MeltCalls.RunGrows | services/acquirer-api/src/postgres-schema.ts:1152-1288 | Rows are append-only: effects, observations, snapshots and events are never taken back, and a terminal payment never changes. |
| MeltTheorems.ReleasedAfterExpiryIsUnpaidForever | services/acquirer-api/src/postgres-cashu-proof-reservation-lifecycle-repository.ts:995-1045 | A payment released by melt_unpaid_after_expiry has no PAID quote observation and no SPENT proof anywhere in its history, now or at any later time, and its evidence is from at or after expiry. |
| MeltTheorems.PaymentEvidenceBlocksRelease | services/acquirer-api/src/postgres-cashu-proof-reservation-lifecycle-repository.ts:525-585 | Once an effect exists and PAID or any SPENT is stored, that release is refused forever. |
| MeltReleases.ReleasesExactlyWhenAllowed | services/acquirer-api/src/postgres-cashu-proof-reservation-lifecycle-repository.ts:525-585 | A release after failure commits if and only if its guards hold, for both kinds of evidence; the write always reads back and is the specified one. |
| MeltReleases.SwapReleasesExactlyWhenAllowed | services/acquirer-api/src/postgres-cashu-proof-reservation-lifecycle-repository.ts:548-575 | After a rejected swap the guards are state, effect, times and the one cited all-UNSPENT snapshot; no other snapshot is looked at. |
| MeltReleases.SwapReleaseIsUnspentIffLatestIs | services/acquirer-api/src/postgres-cashu-proof-reservation-lifecycle-repository.ts:548-575 | Over every run: a payment released by a committed swap release never saw a SPENT proof if and only if its latest snapshot before the call showed none; citing the latest snapshot suffices. |
| MeltWitness.SwapReleasedThoughSpent | services/acquirer-api/src/postgres-cashu-proof-reservation-lifecycle-repository.ts:548-575 | A concrete run of six calls commits a swap release although a later snapshot already shows the proof SPENT. |
| MeltReleases.ConsumedIsPaidForever | services/acquirer-api/src/postgres-cashu-proof-reservation-lifecycle-repository.ts:477-523 | A consumed payment has the PAID observation and the all-SPENT snapshot its last event names, and never changes. |
| MeltTheorems.StartsExactlyWhenAllowed | services/acquirer-api/src/postgres-cashu-proof-reservation-lifecycle-repository.ts:350-445 | An effect starts if and only if its guards hold; the write always reads back. |
| MeltAcceptance.AcceptsExactlyWhenAllowed | services/acquirer-api/src/postgres-cashu-proof-reservation-lifecycle-repository.ts:477-523 | An acceptance commits if and only if its guards hold: state, effect, times, PAID observation, all-SPENT snapshot, open invoice window, fee below amount, immediate route, free journal id, event bound; it then writes exactly the paid invoice, the journal and the consumed event, and always reads back. |
| MeltAcceptance.PendsExactlyWhenAllowed | services/acquirer-api/src/postgres-cashu-proof-reservation-lifecycle-repository.ts:447-460 | A pending event is appended if and only if its guards hold, on a melt; nothing else changes. |
| MeltAcceptance.AttendsExactlyWhenAllowed | services/acquirer-api/src/postgres-cashu-proof-reservation-lifecycle-repository.ts:462-475 | An attention event is appended if and only if its guards hold, with its reason; nothing else changes. |
| MeltAcceptance.ReleasesEarlyExactlyWhenReserved | services/acquirer-api/src/postgres-cashu-proof-reservation-lifecycle-repository.ts:525-541 | A release before dispatch commits if and only if the payment is reserved without effect and the time is not before the reservation; it gives up all claims. |
| MeltAcceptance.ReplaysExactlyItself | services/acquirer-api/src/postgres-cashu-proof-reservation-lifecycle-repository.ts:1154-1186 | A used event id is answered only by its own event: the same draft replays without change, any other is refused. |
| MeltAcceptance.StartReplaysExactlyItself | services/acquirer-api/src/postgres-cashu-proof-reservation-lifecycle-repository.ts:350-399 | A used event id replays a start only for the same event and the same effect. |
| MeltCommits.ReservesExactlyWhen | services/acquirer-api/src/postgres-cashu-proof-reservation-repository.ts:139-230 | A reservation commits exactly when it is well formed and open (unpaid invoice of its unit in its window, accepted route, observed keysets, free proofs) or repeats the stored unreleased one. |
| MeltCommits.StoresCustodyExactlyWhen | services/acquirer-api/src/postgres-schema.ts:1526-1592 | Custody is stored exactly once, in the invoice window, for all proofs, before anything else happens to the payment. |
| MeltCommits.BeginsExactlyWhen | services/acquirer-api/src/postgres-cashu-stellar-melt-quote-repository.ts:213-295 | A quote attempt begins exactly under its conditions or repeats the one stored; no read-back refuses it. |
| MeltCommits.RecordsAmbiguityExactlyWhen | services/acquirer-api/src/postgres-cashu-stellar-melt-quote-repository.ts:315-376 | An ambiguous outcome is recorded exactly as the first outcome before dispatch, or repeats the one stored. |
| MeltCommits.RecordsQuoteExactlyWhen | services/acquirer-api/src/postgres-cashu-stellar-melt-quote-repository.ts:378-455 | A quote is recorded exactly when it is an UNPAID offer on the attempt's terms within the time allowed, as the first outcome with an unused quote id, or repeats the one stored. |
| MeltCommits.ObservesExactlyWhen | services/acquirer-api/src/postgres-cashu-stellar-melt-quote-repository.ts:457-505 | An answer is stored exactly when it is the one already there, or is newer, on the stored terms, takes no PAID back and the payment is not terminal. |
| MeltCommits.ObservesProofsExactlyWhen | services/acquirer-api/src/postgres-cashu-proof-state-repository.ts:169-249 | A proof-state report is stored exactly when it matches its reservation and is the one already there, or takes no SPENT back while the payment is not terminal. |
| MeltResults.EveryWriteIsReadBack | services/acquirer-api/src/postgres-cashu-proof-reservation-lifecycle-repository.ts:1314-1434 | Every state built by committed calls is accepted by the lifecycle reader, provided each non-UNPAID observation is strictly later than the dispatch it follows. |
| MeltResults.ReadableExactlyWhen | services/acquirer-api/src/postgres-cashu-proof-reservation-lifecycle-repository.ts:1623-1670 | Without the proviso: a payment is readable exactly when its last observation up to the dispatch is UNPAID. |
| MeltTheorems.ReadabilityLostOnlyByEarlySighting | services/acquirer-api/src/postgres-cashu-proof-reservation-lifecycle-repository.ts:1644-1664 | A readable payment becomes unreadable exactly by committing a non-UNPAID observation at or before its dispatch. |
| MeltTheorems.SameSecondAnswerBreaksReading | services/acquirer-api/src/postgres-cashu-stellar-melt-quote-repository.ts:457-505 | The proviso is needed: a PENDING answer in the second of the dispatch commits and leaves the payment unreadable. |
| MeltWitness.SameSecondAnswerIsReachable | services/acquirer-api/src/cashu-stellar-melt-coordinator.ts:278-292 | A concrete run of seven calls reaches that state. |
| MeltTheorems.BrokenReadingIsForever | services/acquirer-api/src/postgres-cashu-proof-reservation-lifecycle-repository.ts:1644-1664 | Once an observation at or after the dispatch stands last, an unreadable payment stays unreadable for good. |
| MeltTheorems.UnreadableBlocksLifecycle | services/acquirer-api/src/postgres-cashu-proof-reservation-lifecycle-repository.ts:350-585 | No lifecycle write of any kind succeeds on an unreadable payment. |
| MeltTheorems.CommittedWriteReplays | services/acquirer-api/src/postgres-cashu-proof-reservation-lifecycle-repository.ts:1154-1186 | Any committed lifecycle write, repeated with the same input at any later time while the payment is readable, reports a replay and changes nothing. |
| MeltCalls.ReservationIsSorted | services/acquirer-api/src/postgres-cashu-proof-reservation-repository.ts:488-541 | Stored proofs are the submitted ones, each once, in increasing order. |
| MeltResults.AccountsAlwaysHold | services/acquirer-api/src/postgres-cashu-proof-reservation-lifecycle-repository.ts:644-771 | In every state of every run: unreleased reservations are disjoint, one unreleased effect per invoice, an invoice is paid exactly when exactly one of its payments is consumed, and total debits equal total credits equal the paid invoice amounts. |
| MeltAccounting.ConsumedProofsAreNeverReused | services/acquirer-api/src/postgres-cashu-proof-reservation-repository.ts:139-230 | A consumed payment's proofs are never held by another unreleased payment and can never be reserved again. |
| MeltAccounting.JournalsFormUniqueBatch | packages/domain/src/ledger.ts:244-268 | The journals of distinct payments never collide in id, payment or invoice. |
| AcquirerDatabase.CommitIsOneCall | services/acquirer-api/src/postgres-cashu-proof-reservation-lifecycle-repository.ts:1758-1783 | A repository method that meets its contract is one call of a run, so it keeps the table invariant and everything recorded. |
| LifecycleRepositories.MapQuotedEvidence | services/acquirer-api/src/cashu-stellar-melt-quote-record.ts:146-199 | The history loop accepts exactly the readable observation histories. |
| LifecycleRepositories.DispatchQuote | services/acquirer-api/src/postgres-cashu-proof-reservation-lifecycle-repository.ts:1644-1647 | Filter-and-last picks the last observation not after the dispatch. |
| LifecycleRepositories.AssertMeltPaidEvidence | services/acquirer-api/src/postgres-cashu-proof-reservation-lifecycle-repository.ts:1047-1081 | The first observation found at the evidence time decides; times being distinct, it is the only one. |
| LifecycleRepositories.ResolveProofStateEvidence | services/acquirer-api/src/postgres-cashu-proof-reservation-lifecycle-repository.ts:1436-1564 | The entry loop accepts exactly a full, uniform snapshot. |
| LifecycleRepositories.LoadEvents | services/acquirer-api/src/postgres-cashu-proof-reservation-lifecycle-repository.ts:1335-1358 | The event loop with currentState accepts exactly the readable event histories and ends in the current state. |
| LifecycleRepositories.LifecycleRepository.LoadLifecycle | services/acquirer-api/src/postgres-cashu-proof-reservation-lifecycle-repository.ts:1314-1364 | Loading succeeds exactly on a readable payment, and returns its effect, events and state. |
| LifecycleRepositories.LifecycleRepository.AssertProjection | services/acquirer-api/src/postgres-cashu-proof-reservation-lifecycle-repository.ts:1589-1621 | Claim counts match the state. |
| LifecycleRepositories.LifecycleRepository.ReplayEvent | services/acquirer-api/src/postgres-cashu-proof-reservation-lifecycle-repository.ts:1154-1186 | An existing event id replays, conflicts, or is unused. |
| LifecycleRepositories.LifecycleRepository.InsertEvent | services/acquirer-api/src/postgres-cashu-proof-reservation-lifecycle-repository.ts:1188-1226 | Appends the event; a terminal one destroys custody. |
| LifecycleRepositories.LifecycleRepository.InsertEffect | services/acquirer-api/src/postgres-cashu-proof-reservation-lifecycle-repository.ts:402-435 | Writes the effect with its unique keys and its claim on the invoice, or names the violated key. |
| LifecycleRepositories.LifecycleRepository.StartEffect | services/acquirer-api/src/postgres-cashu-proof-reservation-lifecycle-repository.ts:350-445 | One transaction: the new tables and answer are those of the specification; a failure changes nothing. |
| LifecycleRepositories.LifecycleRepository.PersistTransition | services/acquirer-api/src/postgres-cashu-proof-reservation-lifecycle-repository.ts:1083-1140 | Guards, event, claim release and read-back in their order. |
| LifecycleRepositories.LifecycleRepository.RecordPending | services/acquirer-api/src/postgres-cashu-proof-reservation-lifecycle-repository.ts:447-460 | Transaction contract as for StartEffect. |
| LifecycleRepositories.LifecycleRepository.RequireAttention | services/acquirer-api/src/postgres-cashu-proof-reservation-lifecycle-repository.ts:462-475 | Transaction contract as for StartEffect. |
| LifecycleRepositories.LifecycleRepository.PersistAcceptedPayment | services/acquirer-api/src/postgres-cashu-proof-reservation-lifecycle-repository.ts:644-771 | Journal and paid invoice are written together or not at all; refused exactly unless the invoice is unpaid and in its window, the route immediate, the fee smaller and the ids free. |
| LifecycleRepositories.LifecycleRepository.AcceptPayment | services/acquirer-api/src/postgres-cashu-proof-reservation-lifecycle-repository.ts:477-523 | Transaction contract as for StartEffect; on sound tables with an unused event id it succeeds exactly under the acceptance guards and writes exactly the named rows. |
| LifecycleRepositories.LifecycleRepository.AssertLatestMeltReleaseEvidence | services/acquirer-api/src/postgres-cashu-proof-reservation-lifecycle-repository.ts:995-1045 | The cited observation must be the latest, UNPAID, and the cited snapshot the latest. |
| LifecycleRepositories.LifecycleRepository.Release | services/acquirer-api/src/postgres-cashu-proof-reservation-lifecycle-repository.ts:525-585 | Transaction contract as for StartEffect. |
| QuoteRepositories.QuoteRepository.Begin | services/acquirer-api/src/postgres-cashu-stellar-melt-quote-repository.ts:213-295 | Starts or replays the one attempt of a payment. Transaction contract against the specification. |
| QuoteRepositories.QuoteRepository.RecordAmbiguous | services/acquirer-api/src/postgres-cashu-stellar-melt-quote-repository.ts:315-376 | Records or replays an ambiguous outcome before dispatch. Transaction contract against the specification. |
| QuoteRepositories.QuoteRepository.RecordQuote | services/acquirer-api/src/postgres-cashu-stellar-melt-quote-repository.ts:378-455 | Records the quoted outcome with its first observation. Transaction contract against the specification. |
| QuoteRepositories.QuoteRepository.Observe | services/acquirer-api/src/postgres-cashu-stellar-melt-quote-repository.ts:457-505 | Appends a strictly later observation; PAID is never left; nothing is added to a terminal payment. Transaction contract against the specification. |
| QuoteRepositories.QuoteRepository.MapAttempt | services/acquirer-api/src/postgres-cashu-stellar-melt-quote-repository.ts:741-816 | Accepts exactly the readable attempts. |
| ReservationRepositories.CreateReservation | services/acquirer-api/src/postgres-cashu-proof-reservation-repository.ts:488-541 | The loop with running sum and seen set returns the sorted reservation exactly for distinct proofs within bounds. |
| ReservationRepositories.ReservationRepository.ClaimProofs | services/acquirer-api/src/postgres-cashu-proof-reservation-repository.ts:200-222 | Proofs are claimed one by one; the insert fails exactly when one is already claimed. |
| ReservationRepositories.ReservationRepository.Reserve | services/acquirer-api/src/postgres-cashu-proof-reservation-repository.ts:139-230 | Transaction contract against the specification; a replay changes nothing. |
| ReservationRepositories.ProofStateRepository.PersistObservation | services/acquirer-api/src/postgres-cashu-proof-state-repository.ts:169-249 | The observation and its entries, inserted in a loop, form the specified history. |
| MeltCoordination.AtMostOnePostPerPayment | services/acquirer-api/src/cashu-stellar-melt-coordinator.ts:199-249 | However many dispatchers run, at most one melt POST is ever issued for a payment. |
| MeltCoordination.PostIsCoveredByItsEffect | packages/cashu/src/stellar-melt-execution-client.ts:142-175 | A POST goes out only when its effect is stored with its fingerprint, quote and expiry, at a clock before that expiry, and strictly before the evidence of any release that rests on expiry. |
| MeltCoordination.TerminalResultsAgree | services/acquirer-api/src/cashu-stellar-melt-recovery-coordinator.ts:240-329 | All terminal results that concurrent recover calls return for one payment are the same result with the same journal. |
| MeltCoordination.TerminalResultIsDurable | services/acquirer-api/src/cashu-stellar-melt-recovery-coordinator.ts:398-421 | A returned terminal result is what the tables say from then on. |
| MeltCoordination.TerminalResultRestsOnEvidence | services/acquirer-api/src/cashu-stellar-melt-recovery-coordinator.ts:300-329 | Over every run, then and later: a released result on a melt means the quote was never seen PAID and no proof SPENT; an accepted result means a stored PAID observation and a stored all-SPENT snapshot. |
| RecoveryResults.RecoveryResolves | services/acquirer-api/src/cashu-stellar-melt-recovery-coordinator.ts:201-329 | One recovery of a melt in doubt, both answers in order: PAID and all SPENT in the invoice window returns Accepted and consumes; UNPAID at or after expiry and all UNSPENT, the latest snapshot, returns Released; PENDING with all PENDING or UNSPENT appends a pending event; UNPAID before expiry and all UNSPENT appends nothing; every other case appends NeedsAttention. |
| RecoveryResults.RecoveryAttends | services/acquirer-api/src/cashu-stellar-melt-recovery-coordinator.ts:225-293 | A recovery whose answer fails, contradicts what is stored, takes PAID or SPENT back or has the wrong size appends one attention event with the reason of that obstacle, keeps what it had stored by then and returns nothing. |
| RecoveryResults.RecoveryReturnsStored | services/acquirer-api/src/cashu-stellar-melt-recovery-coordinator.ts:207-212 | A recovery of a settled payment returns the stored result and changes nothing. |
| DispatchResults.DispatchesExactlyWhen | services/acquirer-api/src/cashu-stellar-melt-coordinator.ts:172-249 | A dispatch sends its POST if and only if the payment is reserved without effect, its stored quote was last seen UNPAID with no fee reserve and is current at both prepared clocks, the start guards hold, and the last clock is not behind the prepared one nor past expiry; the POST carries the stored quote, that clock and the fingerprint. It leaves the effect exactly when it started. |
| Coordinators.RecoveryCoordinator.Recover | services/acquirer-api/src/cashu-stellar-melt-recovery-coordinator.ts:200-329 | One uninterrupted recovery performs the system's steps in order; on sound tables what it stores and returns is what the table of answers, or the obstacle it met, determines. |
| Coordinators.RecoveryCoordinator.Conclude | services/acquirer-api/src/cashu-stellar-melt-recovery-coordinator.ts:294-329 | Clock guards, then the decision table, then one write; on sound tables that hold both answers it stores and returns what the table of answers says. |
| Coordinators.RecoveryCoordinator.RecordAttention | services/acquirer-api/src/cashu-stellar-melt-recovery-coordinator.ts:562-650 | A refused write still yields the terminal state someone else reached. |
| Coordinators.RecoveryCoordinator.ReloadTerminal | services/acquirer-api/src/cashu-stellar-melt-recovery-coordinator.ts:398-421 | The stored terminal result, if the payment is readable and terminal. |
| Coordinators.MeltCoordinator.Dispatch | services/acquirer-api/src/cashu-stellar-melt-coordinator.ts:172-249 | One uninterrupted dispatch performs the system's steps in order; on sound tables it sends exactly under the stated conditions. |
| Coordinators.MeltCoordinator.Authorize | services/acquirer-api/src/cashu-stellar-melt-coordinator.ts:206-228 | Only a freshly started effect authorizes the POST; a replay does not. |
| RecoveryJobs.EveryHistoryIsReadable | services/acquirer-api/src/postgres-cashu-stellar-melt-recovery-job-repository.ts:591-689 | Every dispatched melt has a recovery job and only those, and every history that any interleaving commits is accepted by mapJob. |
| RecoveryJobs.LeasesAreOrdered | services/acquirer-api/src/postgres-cashu-stellar-melt-recovery-job-repository.ts:186-326 | Leases are numbered 1, 2, 3, ..., claim times strictly increase, and tokens differ. |
| RecoveryJobs.OldLeaseIsFenced | services/acquirer-api/src/postgres-cashu-stellar-melt-recovery-job-repository.ts:341-418 | Once a newer lease exists the older one records nothing any more, and its row stays as it is. |
| RecoveryJobs.OneOutcomePerLease | services/acquirer-api/src/postgres-cashu-stellar-melt-recovery-job-repository.ts:341-418 | A lease records at most one outcome: the same one replays, any other is refused. |
| RecoveryJobs.FinalOutcomeIsTrue | services/acquirer-api/src/postgres-schema.ts:3304-3358 | An accepted or released outcome is the payment's own terminal state, then and for good. |
| RecoveryCommits.ClaimsExactlyWhenDue | services/acquirer-api/src/postgres-cashu-stellar-melt-recovery-job-repository.ts:186-326 | A lease is granted exactly on a dispatched melt in doubt that is due (a minute after dispatch, then at lease end or retry time), within the longest lease and attempt number, with an unused token; it takes the next number. |
| RecoveryCommits.RecordsExactlyWhenLeased | services/acquirer-api/src/postgres-cashu-stellar-melt-recovery-job-repository.ts:341-418 | An outcome is recorded exactly under the newest lease's token, as its first within the lease and in the payment's state, or again as the same; the job always reads back. |
| RecoveryCommits.ViewIsWhatHappened | services/acquirer-api/src/postgres-cashu-stellar-melt-recovery-job-repository.ts:591-662 | The view of a job is the payment's end, or when the next attempt is due, or who holds the lease, or why it was halted. |
| RecoveryWorkers.RecoveriesAreBounded | services/acquirer-api/src/cashu-stellar-melt-recovery-worker.ts:125-189 | When no worker allows more than a bound of attempts, a payment is recovered at most that often, whatever workers die. |
| RecoveryWorkers.StoredDelaysGrow | services/acquirer-api/src/cashu-stellar-melt-recovery-worker.ts:233-251 | Under one policy, stored retries wait between base and maximum, later ones never less, and none is scheduled at the last attempt. |
| RecoveryWorkers.DelaysAreBoundedAndGrow | services/acquirer-api/src/cashu-stellar-melt-recovery-worker.ts:233-251 | min(base * 2^(n-1), max) lies in [base, max] and does not decrease in n. |
| RecoveryWorkers.DelaysDouble | services/acquirer-api/src/cashu-stellar-melt-recovery-worker.ts:240-251 | The first delay is the base and each next one doubles, up to the maximum. |
| RecoveryWorkers.WorkersAgree | services/acquirer-api/src/cashu-stellar-melt-recovery-worker.ts:253-314 | Terminal states reported by any workers for one payment agree, and the payment is in that state. |
| RecoveryRepositories.MapAttempts | services/acquirer-api/src/postgres-cashu-stellar-melt-recovery-job-repository.ts:664-689 | The loop with eligibleAt accepts exactly the readable lease histories. |
| RecoveryRepositories.RecoveryJobRepository.ClaimNext | services/acquirer-api/src/postgres-cashu-stellar-melt-recovery-job-repository.ts:186-326 | Eligibility is decided under the job lock; one lease row is appended or nothing changes. |
| RecoveryRepositories.RecoveryJobRepository.ReadJob | services/acquirer-api/src/postgres-cashu-stellar-melt-recovery-job-repository.ts:591-662 | The job view, or refusal, as specified. |
| RecoveryRepositories.RecoveryJobRepository.RecordOutcome | services/acquirer-api/src/postgres-cashu-stellar-melt-recovery-job-repository.ts:341-418 | Only the newest lease writes, within its time and the lifecycle's state; a failed read-back is rolled back. |
| RecoveryRepositories.RecoveryWorker.PersistOutcome | services/acquirer-api/src/cashu-stellar-melt-recovery-worker.ts:253-300 | The outcome is recorded and fixes the result; on a lost lease the terminal state of the payment, if it has one, is reported instead. |
| RecoveryRepositories.RecoveryWorker.RunOnce | services/acquirer-api/src/cashu-stellar-melt-recovery-worker.ts:125-189 | Claim, at most one recovery within the attempt bound, then ConcludeLease on the tables that recovery left: the stored outcome and the result are determined by the report. |
| RecoveryRepositories.RecoveryWorker.ConcludeLease | services/acquirer-api/src/cashu-stellar-melt-recovery-worker.ts:144-251 | With the newest lease, per report: doubt, abort, storage failure and crash schedule a retry with their own reason after min(base * 2^(n-1), max), or give up at the last attempt; evidence, response and configuration faults halt with theirs; a settled payment is recorded as such; a late or overtaken worker stores nothing. |
| InputFees.FeeIsLeastCover | packages/cashu/src/payment-payload.ts:229-229 | The fee is the least whole amount covering the summed rate in parts per thousand, as the NUT-02 fee rule has it. |
| InputFees.ValidatePayment | packages/cashu/src/payment-payload.ts:106-247 | The loops return the first fault in order, or fee, net amount and sorted references. |
| InputFees.ValidatesByStages | packages/cashu/src/payment-payload.ts:106-247 | A payment is validated exactly when all stages pass, and otherwise refused with the error of the first that fails; fee and net amount then make up the gross amount and the fee covers the summed rate. |
| InputFees.AmountFaultIsFirst | packages/cashu/src/payment-payload.ts:312-332 | The first proof that spoils the amounts names the fault: a zero amount, or a sum beyond the safe integers. |
| InputFees.ProofFaultIsFirst | packages/cashu/src/payment-payload.ts:147-181 | The first proof refused is refused by the first of its checks that fails: repeated secret, unknown keyset, unit, expiry. |
| InputFees.SumInputFee | packages/cashu/src/payment-payload.ts:147-181 | The proof loop accumulates the summed rate or stops at the first faulty proof. |
| InputFees.DeriveInputFee | services/acquirer-api/src/cashu-stellar-melt-coordinator.ts:630-671 | The dispatch loop over the reserved proofs returns the specified fee or refusal. |
| InputFees.RequireExactInputAmount | packages/cashu/src/stellar-melt-execution-client.ts:337-352 | Accepts exactly inputs that sum to quote amount plus fee within safe integers. |
| InputFees.SumsIgnoreOrder | packages/cashu/src/payment-payload.ts:188-222 | Gross amount and summed rate do not depend on the order of the proofs. |
| InputFees.DispatchedFeeIsValidatedFee | services/acquirer-api/src/cashu-stellar-melt-coordinator.ts:630-671 | At any later clock and for any proof order, dispatch derives a fee exactly when the keysets are still usable and the quote asks for the net amount, and then it is the fee computed at validation. |
| InputFees.DispatchedInputsAreExact | services/acquirer-api/src/cashu-stellar-melt-coordinator.ts:630-671 | Dispatched inputs sum to the quoted amount plus the summed rate rounded up to whole units. |
| InputFees.ValidatedReferencesAreReserved | packages/cashu/src/payment-payload.ts:188-222 | The references a validation returns are, as a multiset, what a reservation of them stores. |

## Left out

- HTTP clients and routes, timeouts and abort signals: an aborted call is a driver or activity that vanishes between two steps.
- SQL text and PostgreSQL: tables are maps, a repository method is one atomic transaction under its row lock, and of the schema's triggers those that only repeat a repository check are not modelled.
- Which eligible job `claimNext` takes first: the candidate is any payment, eligibility is decided again under its lock, and ties and ordering by due time are not stated.
- Cryptography (AES-GCM custody, envelope keys, hash-to-curve, DLEQ, SHA-256): fingerprints are equality of the values they cover, custody is its creation time or absence, the signature check of a payment is a boolean input.
- Identifiers that the coordinators derive by hashing are plain concatenations of what is hashed; the results rely only on equal inputs giving equal identifiers.
- NUT-18 payloads, URL parsing and mint URL normalisation: normalised URLs are opaque keys, a SEP-7 request is its text with the amount and destination parsed out of it.
- Horizon decoding and the CDK surface: the deposit source is an ordered log from which a page is any contiguous stretch after the cursor.
- The payout network is a stated contract: only submitted envelopes are confirmed, a hash is never both confirmed and finally failed, a hash is signed for one quote, and `Confirmed`, `ProvablyFailed` and rejection answers are true.
- Validators of identifiers, timestamps and console input, error messages, operator policy: values are taken as already validated; integer widths are written out only where arithmetic is the point (amounts, ledger totals, fees, job times).
- Liveness: acceptance at or after invoice expiry is refused on purpose (`invoice.ts:136`), so paid and spent payments are not claimed to be accepted eventually.
- Directory sync failing after the file was replaced is resolved at that moment: the file then holds the new state.
- Keyset evidence of a reservation is a boolean input; the fee modules model the keysets themselves.
- Proof-state snapshots are identified by their observation time, which is unique per payment.
- Dispatch and recovery read reservation, lifecycle and quote in one step; the repository checks everything again under the row lock in the transaction that follows, and the results use only that.
- Coordinators.MeltCoordinator.Dispatch: stops at the POST. What dispatch does after it (observing the answer, recording pending or attention) is covered as other repository calls of a run, not as steps of the dispatch activity; a fee or custody failure before the POST is a dispatcher that vanishes.
- Creating invoices and storing custody have no imperative form: only their effect on the tables is specified.
- Processors.StellarPaymentProcessor.DriveSettlement: states the store and the envelope sent, not the response built from the final record, which is a rendering of that record.
- Coordinators.RecoveryCoordinator.Recover: returns the terminal result only; pending and attention results are what the stored event says.
- LifecycleRepositories.LifecycleRepository.AcceptPayment: returns whether the call replayed; the accounting it also returns is the stored journal, and the posting rows are the entry's postings, not rows of their own.
- Strkey.DecodeBase32: the number buffer is a 32-bit vector and its shifts are written out per shift amount, which its values never outgrow.
- RecoveryRepositories.RecoveryWorker.RunOnce: the coordinator call is the report it ends with and the tables it leaves, which may have grown in any way that dispatches no melt; its own repository calls are separate steps of the worker system.
