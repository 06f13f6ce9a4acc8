/**
 * Two concrete runs of the payment tables from an invoice and a reservation of
 * a single proof. In one, custody, a quote and its dispatch follow, and then the
 * operator's PENDING answer in the second of the dispatch, which leaves the
 * payment unreadable. In the other a swap is released although its proof was
 * already seen SPENT.
 */
module MeltWitness {
  import opened Outcomes
  import opened MeltRecords
  import opened MeltStore
  import opened MeltRows
  import opened MeltInvariants
  import opened MeltCalls
  import opened MeltTheorems
  import opened MeltReleases
  import ProofHistory
  import Ledger

  const INVOICE := InvoiceRow(
    Ledger.Invoice("inv", "merchant", 10, 100, 1000, None), STELLAR_UNIT,
    map[("op", "mint") := Route(Ledger.ImmediateConversion, "G")])
  const RESERVATION := Reservation("inv", "op", "mint", STELLAR_UNIT, [Proof(7, "k", 10)], 100, 110)
  const CLAIM := ("mint", 7 as nat)
  const ATTEMPT := Attempt("attempt", Request("pay", 10, "G"), 120)
  const TERMS := Terms("mint", 10, "pay", "quote", 0, 500)
  const EFFECT := Effect("effect", "fingerprint", 130, Melt("quote", 500))

  const ROW2 := PaymentRow(RESERVATION, None, None, None, [], map[], None, [])
  const ROW3 := ROW2.(custodyAt := Some(115))
  const ROW4 := ROW3.(attempt := Some(ATTEMPT))
  const ROW5 := ROW4.(outcome := Some(Quoted(TERMS, 125)), sightings := [Sighting(125, Unpaid)])

  const T1 := NoTables.(invoices := map["inv" := INVOICE])
  const T2 := T1.(payments := map["p" := ROW2], proofClaims := map[CLAIM := "p"])
  const T3 := WithRow(T2, "p", ROW3)
  const T4 := WithRow(T3, "p", ROW4).(keys := map[AttemptKey("attempt") := "p"])
  const T5 := WithRow(T4, "p", ROW5).(keys := T4.keys[QuoteKey("mint", "quote") := "p"])

  const CALLS: seq<Call> := [
    CallCreateInvoice("inv", INVOICE),
    CallReserve("p", RESERVATION, true),
    CallStoreCustody("p", 115, 1),
    CallBeginQuote("p", ATTEMPT),
    CallRecordQuote("p", "attempt", Quote(TERMS, 125, Unpaid))]

  const TRACE: seq<Tables> := [NoTables, T1, T2, T3, T4, T5]

  lemma InvoiceStep()
    ensures Apply(NoTables, CALLS[0]) == Fresh(T1)
  {
  }

  lemma ReserveStep()
    ensures Apply(T1, CALLS[1]) == Fresh(T2)
  {
    var blank := ROW2;
    assert Gross(RESERVATION.proofs) == 10 by {
      assert RESERVATION.proofs[..0] == [];
    }
    assert SortByY(RESERVATION.proofs) == RESERVATION.proofs by {
      assert RESERVATION.proofs[1..] == [];
      assert SortByY(RESERVATION.proofs) == Insert(Proof(7, "k", 10), []);
    }
    assert NormalReservation(RESERVATION) == Some(RESERVATION);
    hide NormalReservation, SortByY, Gross;
    OneClaim(blank);
    assert T1.proofClaims + (map k | k in ClaimKeys(blank) :: "p") == map[CLAIM := "p"];
  }

  lemma OneClaim(row: PaymentRow)
    requires row.reservation == RESERVATION
    ensures ClaimKeys(row) == {CLAIM}
  {
    assert row.reservation.proofs[0].y == 7;
  }

  lemma ClaimsHeld(t: Tables)
    requires t.proofClaims == map[CLAIM := "p"]
    ensures |ProofClaimsOf(t, "p")| == 1
  {
    assert ProofClaimsOf(t, "p") == {CLAIM};
  }

  lemma CustodyStep()
    ensures Apply(T2, CALLS[2]) == Fresh(T3)
  {
    ClaimsHeld(T2);
    hide ProofClaimsOf;
  }

  lemma BeginStep()
    ensures Apply(T3, CALLS[3]) == Fresh(T4)
  {
    ClaimsHeld(T3);
    hide ProofClaimsOf;
  }

  lemma QuoteStep()
    ensures Apply(T4, CALLS[4]) == Fresh(T5)
  {
    assert LockAttempt(T4, "p", "attempt") == Ok(ATTEMPT);
    assert ROW4.sightings + [Sighting(125, Unpaid)] == [Sighting(125, Unpaid)];
    assert AttemptReadable(ROW5);
    hide AttemptReadable, LockAttempt;
  }

  lemma FirstFive(i: nat)
    requires i < 5
    ensures After(TRACE[i], CALLS[i]) == TRACE[i + 1]
  {
    hide CreateInvoice, Reserve, StoreCustody, BeginQuote, RecordQuote, WithRow;
    if i == 0 { InvoiceStep(); }
    else if i == 1 { ReserveStep(); }
    else if i == 2 { CustodyStep(); }
    else if i == 3 { BeginStep(); }
    else { QuoteStep(); }
  }

  lemma FiveIsARun()
    ensures IsRun(TRACE, CALLS) && Sound(T5)
  {
    hide After;
    forall i: nat | i < 5 ensures TRACE[i + 1] == After(TRACE[i], CALLS[i]) { FirstFive(i); }
    assert IsRun(TRACE, CALLS);
    RunIsSound(TRACE, CALLS, 5);
    hide Sound;
  }

  lemma DispatchAllowed()
    requires Sound(T5)
    ensures StartAllowed(T5, "p", EFFECT) && EventKey("start") !in T5.keys
  {
    ReadableBeforeDispatch(T5, "p");
    hide Readable, Sound;
    QuoteAllowsDispatch();
    hide DispatchEvidence, EffectKeys;
  }

  lemma QuoteAllowsDispatch()
    ensures "p" in T5.payments && HasInvoice(T5, T5.payments["p"])
    ensures DispatchEvidence(T5, T5.payments["p"], EFFECT).None? && EffectKeys("mint", EFFECT) !! T5.keys.Keys
  {
    assert LastAtOrBefore(ROW5.sightings, 130) == Some(Sighting(125, Unpaid));
    assert TermsMatchEffect(ROW5, INVOICE.invoice, Route(Ledger.ImmediateConversion, "G"), EFFECT);
  }

  const DISPATCH: Call := CallStartEffect("p", "start", EFFECT)

  lemma DispatchStep()
    requires Sound(T5)
    ensures var t := After(T5, DISPATCH);
            && Sound(t) && "p" in t.payments && Readable(t, "p") && InFlightMelt(t.payments["p"])
            && t.payments["p"].effect == Some(EFFECT) && t.payments["p"].sightings == [Sighting(125, Unpaid)]
  {
    hide *;
    DispatchAllowed();
    RowFive();
    StartWriteReads(T5, "p", "start", EFFECT);
    AllowedStartCommits(T5, "p", "start", EFFECT);
    ApplyKeeps(T5, DISPATCH);
    DispatchComputes();
    StartConditions(T5, "p", "start", EFFECT);
    StartShape(T5, "p", "start", EFFECT);
    StartFacts(ROW5, "start", EFFECT);
    InFlightRow();
  }

  lemma RowFive()
    ensures "p" in T5.payments && T5.payments["p"] == ROW5
  {
  }

  lemma DispatchComputes()
    ensures StartEffect(T5, "p", "start", EFFECT).Ok? ==> After(T5, DISPATCH) == StartEffect(T5, "p", "start", EFFECT).value.tables
  {
    hide StartEffect;
  }

  lemma InFlightRow()
    ensures var row := AppendEvent(ROW5.(effect := Some(EFFECT)), StartDraft("start", EFFECT));
            InFlightMelt(row) && row.effect == Some(EFFECT) && row.sightings == [Sighting(125, Unpaid)]
  {
  }

  /** The defect is reachable: a dispatched, readable payment becomes unreadable by one committed observation. */
  lemma SameSecondAnswerIsReachable()
    ensures exists trace: seq<Tables>, calls: seq<Call> ::
              && |calls| == 7 && IsRun(trace, calls) && calls[6].CallObserveQuote?
              && "p" in trace[6].payments && Readable(trace[6], "p") && Active(trace[6].payments["p"])
              && "p" in trace[7].payments && !Readable(trace[7], "p")
  {
    hide After, Sound, Readable, ObserveQuote;
    FiveIsARun();
    DispatchStep();
    var t := After(T5, DISPATCH);
    SameSecondAnswerBreaksReading(t, "p");
    var answer := CallObserveQuote("p", t.payments["p"].attempt.value.attemptId, SameSecondAnswer(t.payments["p"]));
    var u := After(t, answer);
    ObservationComputes(t, answer);
    var trace, calls := TRACE + [t, u], CALLS + [DISPATCH, answer];
    forall i | 0 <= i < |calls| ensures trace[i + 1] == After(trace[i], calls[i]) {
      if i < 5 { assert trace[i] == TRACE[i] && trace[i + 1] == TRACE[i + 1] && calls[i] == CALLS[i]; }
    }
    assert IsRun(trace, calls);
  }

  lemma ObservationComputes(t: Tables, c: Call)
    requires c.CallObserveQuote? && ObserveQuote(t, c.p, c.attemptId, c.quote).Ok?
    ensures After(t, c) == ObserveQuote(t, c.p, c.attemptId, c.quote).value.tables
  {
    hide ObserveQuote;
  }

  // ------------------------------------------------ a swap released though spent

  const SWAP := Effect("effect", "fingerprint", 120, Swap)

  function Report(at: nat, state: ProofHistory.ProofState): ProofReport {
    ProofReport("op", "mint", STELLAR_UNIT, [7], ProofHistory.Observation(at, [state]))
  }

  const SWAP_CALLS: seq<Call> := [
    CallCreateInvoice("inv", INVOICE),
    CallReserve("p", RESERVATION, true),
    CallStartEffect("p", "start", SWAP),
    CallObserveProofs("p", Report(130, ProofHistory.Unspent)),
    CallObserveProofs("p", Report(140, ProofHistory.Spent)),
    CallRelease("p", CITING_EARLY)]

  /** The release cites the snapshot of 130 although that of 140 shows the proof SPENT. */
  const CITING_EARLY := ReleaseAfterFailure("release", "effect", SwapRejected, 125, 130, 150)

  const SWAP_ROW := PaymentRow(RESERVATION, None, None, None, [], map[], Some(SWAP), [StartDraft("start", SWAP)])
  const SEEN_UNSPENT := SWAP_ROW.(snapshots := map[130 := [ProofHistory.Unspent]])
  const SEEN_SPENT := SWAP_ROW.(snapshots := map[130 := [ProofHistory.Unspent], 140 := [ProofHistory.Spent]])

  const S3 := StartWritten(T2, "p", "start", SWAP)
  const S4 := WithRow(S3, "p", SEEN_UNSPENT)
  const S5 := WithRow(S4, "p", SEEN_SPENT)

  lemma ReservedIsSound()
    ensures Sound(T2) && Readable(T2, "p")
  {
    hide After, Sound;
    FirstFive(0);
    FirstFive(1);
    assert IsRun(TRACE[..3], CALLS[..2]);
    RunIsSound(TRACE[..3], CALLS[..2], 2);
    ReadableBeforeDispatch(T2, "p");
  }

  lemma SwapStart()
    requires Sound(T2) && Readable(T2, "p")
    ensures Apply(T2, SWAP_CALLS[2]) == Fresh(S3)
  {
    assert StartAllowed(T2, "p", SWAP) && EventKey("start") !in T2.keys by { hide Sound, Readable; }
    hide *;
    assert "p" in T2.payments by { RowTwo(); }
    StartWriteReads(T2, "p", "start", SWAP);
    AllowedStartCommits(T2, "p", "start", SWAP);
    SwapStartComputes();
  }

  lemma RowTwo()
    ensures "p" in T2.payments && T2.payments["p"] == ROW2
  {
  }

  lemma SwapStartComputes()
    requires StartEffect(T2, "p", "start", SWAP).Ok?
    requires StartEffect(T2, "p", "start", SWAP).value == Committed(S3, false)
    ensures Apply(T2, SWAP_CALLS[2]) == Fresh(S3)
  {
    hide StartEffect;
  }

  lemma SwapRows()
    ensures "p" in S3.payments && S3.payments["p"] == SWAP_ROW
    ensures "p" in S4.payments && S4.payments["p"] == SEEN_UNSPENT
    ensures "p" in S5.payments && S5.payments["p"] == SEEN_SPENT
  {
    assert [StartDraft("start", SWAP)] == [] + [StartDraft("start", SWAP)];
  }

  lemma ObserveEarly()
    ensures Apply(S3, SWAP_CALLS[3]) == Fresh(S4)
  {
    SwapRows();
    hide StartWritten;
    assert Ys(RESERVATION.proofs) == [7];
    assert map[][130 := [ProofHistory.Unspent]] == SEEN_UNSPENT.snapshots;
  }

  lemma ObserveLate()
    ensures Apply(S4, SWAP_CALLS[4]) == Fresh(S5)
  {
    SwapRows();
    hide StartWritten;
    assert Ys(RESERVATION.proofs) == [7];
    assert SEEN_UNSPENT.snapshots[140 := [ProofHistory.Spent]] == SEEN_SPENT.snapshots;
    assert !ProofHistory.Contradicts([ProofHistory.Unspent], [ProofHistory.Spent]);
  }

  lemma SwapGuards()
    requires Readable(S5, "p")
    ensures CITING_EARLY.ReleaseAfterFailure? && CITING_EARLY.evidence.SwapRejected? && CITING_EARLY.eventId == "release"
    ensures EventKey("release") !in S5.keys && SwapReleaseAllowed(S5, "p", CITING_EARLY)
  {
    SwapRows();
    hide Readable;
  }

  lemma SwapRelease()
    requires Sound(S5)
    ensures Release(S5, "p", CITING_EARLY).Ok? && !Release(S5, "p", CITING_EARLY).value.replayed
  {
    SwapRows();
    SwapNeedsNoQuote();
    hide *;
    ReadableIffDispatchQuoteUnpaid(S5, "p");
    SwapGuards();
    SwapReleasesExactlyWhenAllowed(S5, "p", CITING_EARLY);
    ReleasesExactlyWhenAllowed(S5, "p", CITING_EARLY);
    FreshIsNew(ReleaseWritten(S5, "p", ReleaseDraft(CITING_EARLY)));
  }

  lemma SwapNeedsNoQuote()
    ensures DispatchQuoteReadable(SEEN_SPENT)
  {
  }

  lemma FreshIsNew(t: Tables)
    ensures Fresh(t).Ok? && !Fresh(t).value.replayed
  {
  }

  /** The first five calls of the swap run. */
  lemma SwapSteps(i: nat)
    requires i < 5
    ensures After(SWAP_TRACE[i], SWAP_CALLS[i]) == SWAP_TRACE[i + 1] && Sound(S5)
  {
    hide After, Apply, Sound, Readable, StartWritten, WithRow;
    ReservedIsSound();
    SwapStart();
    ObserveEarly();
    ObserveLate();
    CommitsTo(T2, SWAP_CALLS[2], S3);
    CommitsTo(S3, SWAP_CALLS[3], S4);
    CommitsTo(S4, SWAP_CALLS[4], S5);
    ApplyKeeps(T2, SWAP_CALLS[2]);
    ApplyKeeps(S3, SWAP_CALLS[3]);
    ApplyKeeps(S4, SWAP_CALLS[4]);
    if i < 2 {
      FirstFive(i);
      assert SWAP_CALLS[i] == CALLS[i];
    }
  }

  const SWAP_TRACE: seq<Tables> := [NoTables, T1, T2, S3, S4, S5]

  /** Such a release is reachable: it commits, and the payment it releases has a SPENT proof in its history. */
  lemma SwapReleasedThoughSpent()
    ensures exists trace: seq<Tables>, calls: seq<Call> ::
              && |calls| == 6 && IsRun(trace, calls) && calls[5] == CallRelease("p", CITING_EARLY)
              && Release(trace[5], "p", CITING_EARLY).Ok? && !Release(trace[5], "p", CITING_EARLY).value.replayed
              && "p" in trace[6].payments && Current(trace[6].payments["p"]).Released? && !NeverSpent(trace[6].payments["p"])
  {
    hide After, Sound, Release, StartWritten, WithRow, NeverSpent, Current;
    SwapSteps(0);
    SwapRows();
    SwapRelease();
    ReleaseComputes();
    ReleasedRow(S5, "p", CITING_EARLY);
    var last := After(S5, SWAP_CALLS[5]);
    SpentInHistory(last.payments["p"]);
    var trace := SWAP_TRACE + [last];
    forall i: nat | i < 6 ensures trace[i + 1] == After(trace[i], SWAP_CALLS[i]) {
      if i < 5 { SwapSteps(i); }
    }
    assert IsRun(trace, SWAP_CALLS);
  }

  lemma CommitsTo(t: Tables, c: Call, u: Tables)
    requires Apply(t, c) == Fresh(u)
    ensures After(t, c) == u
  {
    hide Apply;
  }

  lemma ReleaseComputes()
    requires Release(S5, "p", CITING_EARLY).Ok?
    ensures After(S5, SWAP_CALLS[5]) == Release(S5, "p", CITING_EARLY).value.tables
  {
    hide Release;
  }

  lemma SpentInHistory(row: PaymentRow)
    requires row.snapshots == SEEN_SPENT.snapshots
    ensures !NeverSpent(row)
  {
    assert row.snapshots[140][0] == ProofHistory.Spent;
  }
}
