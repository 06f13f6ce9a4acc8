/**
 * Double-entry accounting of an accepted invoice payment (ledger.ts, invoice.ts).
 * Identifiers are taken as already validated.
 */
module Ledger {
  import opened Outcomes

  const MAX_SAFE_INTEGER: nat := 0x1F_FFFF_FFFF_FFFF

  datatype Account =
    | OperatorEcash(operatorId: string)
    | SettlementAsset(assetId: string)
    | MerchantPayable(merchantId: string)
    | FeeRevenue

  datatype Side = Debit | Credit

  datatype Mode = TrustedHold | ImmediateConversion

  datatype Posting = Posting(account: Account, amount: nat, side: Side)

  datatype Reference = Reference(
    invoiceId: string, merchantId: string, operatorId: string, paymentId: string, mode: Mode)

  datatype Entry = Entry(id: string, effectiveAt: nat, postings: seq<Posting>, reference: Reference)

  datatype LedgerError =
    | AccountModeMismatch
    | DuplicateInvoicePayment
    | DuplicateJournalEntry
    | DuplicatePayment
    | FeeNotLessThanGross
    | InvalidPosting
    | InvalidPaymentEntry
    | PostingTotalOverflow
    | UnbalancedEntry

  // ---------------------------------------------------------- journal entry

  function Total(postings: seq<Posting>, side: Side): nat {
    if postings == [] then 0
    else
      var last := postings[|postings| - 1];
      Total(postings[..|postings| - 1], side) + if last.side == side then last.amount else 0
  }

  predicate IsAssetDebit(p: Posting) {
    p.side.Debit? && (p.account.OperatorEcash? || p.account.SettlementAsset?)
  }

  predicate IsMerchantCredit(p: Posting, r: Reference) {
    p.side.Credit? && p.account == MerchantPayable(r.merchantId)
  }

  predicate IsFeeCredit(p: Posting) {
    p.side.Credit? && p.account.FeeRevenue?
  }

  function Filtered(postings: seq<Posting>, keep: Posting -> bool): seq<Posting> {
    if postings == [] then []
    else
      var last := postings[|postings| - 1];
      Filtered(postings[..|postings| - 1], keep) + if keep(last) then [last] else []
  }

  predicate AssetFitsMode(account: Account, operatorId: string, mode: Mode) {
    match mode
    case TrustedHold => account == OperatorEcash(operatorId)
    case ImmediateConversion => account.SettlementAsset?
  }

  function CheckInvoicePaymentPostings(postings: seq<Posting>, r: Reference): Option<LedgerError> {
    var assets := Filtered(postings, p => IsAssetDebit(p));
    var merchants := Filtered(postings, p => IsMerchantCredit(p, r));
    var fees := Filtered(postings, p => IsFeeCredit(p));
    if |assets| != 1 || |merchants| != 1 || |fees| > 1 || |postings| != |assets| + |merchants| + |fees| then
      Some(InvalidPaymentEntry)
    else if !AssetFitsMode(assets[0].account, r.operatorId, r.mode) then Some(AccountModeMismatch)
    else None
  }

  predicate BadPosting(p: Posting) {
    p.amount == 0 || p.amount > MAX_SAFE_INTEGER
  }

  function CreateEntry(id: string, effectiveAt: nat, postings: seq<Posting>, r: Reference): Result<Entry, LedgerError> {
    if |postings| < 2 then Err(InvalidPosting)
    else if exists i :: 0 <= i < |postings| && BadPosting(postings[i]) then Err(InvalidPosting)
    else if Total(postings, Debit) > MAX_SAFE_INTEGER || Total(postings, Credit) > MAX_SAFE_INTEGER then
      Err(PostingTotalOverflow)
    else if Total(postings, Debit) != Total(postings, Credit) then Err(UnbalancedEntry)
    else match CheckInvoicePaymentPostings(postings, r)
      case Some(e) => Err(e)
      case None => Ok(Entry(id, effectiveAt, postings, r))
  }

  method CreateJournalEntry(id: string, effectiveAt: nat, postings: seq<Posting>, r: Reference)
    returns (result: Result<Entry, LedgerError>)
    ensures result == CreateEntry(id, effectiveAt, postings, r)
  {
    if |postings| < 2 {
      return Err(InvalidPosting);
    }
    var debits, credits := 0, 0;
    for index := 0 to |postings|
      invariant debits == Total(postings[..index], Debit) && credits == Total(postings[..index], Credit)
      invariant forall i :: 0 <= i < index ==> !BadPosting(postings[i])
    {
      var posting := postings[index];
      if posting.amount == 0 || posting.amount > MAX_SAFE_INTEGER {
        assert BadPosting(postings[index]);
        return Err(InvalidPosting);
      }
      assert postings[..index + 1][..index] == postings[..index];
      if posting.side == Debit {
        debits := debits + posting.amount;
      } else {
        credits := credits + posting.amount;
      }
    }
    assert postings[..|postings|] == postings;
    if debits > MAX_SAFE_INTEGER || credits > MAX_SAFE_INTEGER {
      return Err(PostingTotalOverflow);
    }
    if debits != credits {
      return Err(UnbalancedEntry);
    }
    var invalid := CheckInvoicePaymentPostings(postings, r);
    if invalid.Some? {
      return Err(invalid.value);
    }
    return Ok(Entry(id, effectiveAt, postings, r));
  }

  // -------------------------------------------- what a stored journal means

  /** Gross, net and fee of an entry, read off its postings. */
  datatype Split = Split(asset: Account, gross: nat, net: nat, fee: nat)

  function PostingsOf(s: Split, merchantId: string): seq<Posting> {
    [Posting(s.asset, s.gross, Debit), Posting(MerchantPayable(merchantId), s.net, Credit)]
    + if s.fee > 0 then [Posting(FeeRevenue, s.fee, Credit)] else []
  }

  /**
   * Every accepted entry is, up to the order of its postings, one asset debit of the gross amount against
   * one merchant credit of the net amount and at most one fee credit, with gross = net + fee.
   */
  lemma AcceptedEntryIsASplit(id: string, effectiveAt: nat, postings: seq<Posting>, r: Reference) returns (s: Split)
    requires CreateEntry(id, effectiveAt, postings, r).Ok?
    ensures multiset(postings) == multiset(PostingsOf(s, r.merchantId))
    ensures s.gross == s.net + s.fee && 0 < s.net && s.gross <= MAX_SAFE_INTEGER
    ensures AssetFitsMode(s.asset, r.operatorId, r.mode)
  {
    FilterSplitsMultiset(postings, r);
    var d, m, f := TheThreeKinds(postings, r);
    s := Split(d.account, d.amount, m.amount, if f.Some? then f.value.amount else 0);
    var ordered := [d, m] + if f.Some? then [f.value] else [];
    assert ordered == PostingsOf(s, r.merchantId);
    hide Filtered, Total, CheckInvoicePaymentPostings;
    TotalIsOrderFree(postings, ordered, Debit);
    TotalIsOrderFree(postings, ordered, Credit);
    TotalOfSplit(s, r.merchantId);
  }

  lemma TheThreeKinds(postings: seq<Posting>, r: Reference) returns (d: Posting, m: Posting, f: Option<Posting>)
    requires CheckInvoicePaymentPostings(postings, r).None?
    requires forall i :: 0 <= i < |postings| ==> !BadPosting(postings[i])
    ensures multiset(postings) == multiset([d, m] + if f.Some? then [f.value] else [])
    ensures IsAssetDebit(d) && IsMerchantCredit(m, r) && (f.Some? ==> IsFeeCredit(f.value))
    ensures AssetFitsMode(d.account, r.operatorId, r.mode)
    ensures !BadPosting(d) && !BadPosting(m) && (f.Some? ==> !BadPosting(f.value))
  {
    hide Filtered, IsAssetDebit, IsMerchantCredit, IsFeeCredit, AssetFitsMode, BadPosting;
    var asset, merchant, fee := p => IsAssetDebit(p), p => IsMerchantCredit(p, r), p => IsFeeCredit(p);
    var assets, merchants, fees := Filtered(postings, asset), Filtered(postings, merchant), Filtered(postings, fee);
    FilterSplitsMultiset(postings, r);
    FilteredKeeps(postings, asset);
    FilteredKeeps(postings, merchant);
    FilteredKeeps(postings, fee);
    d, m, f := assets[0], merchants[0], if |fees| == 1 then Some(fees[0]) else None;
    assert assets[0] in assets && merchants[0] in merchants;
    assert assets == [d] && merchants == [m];
    assert |fees| == 1 ==> fees == [fees[0]] && fees[0] in fees;
    assert assets + merchants + fees == [d, m] + if f.Some? then [f.value] else [];
  }

  lemma TotalOfOne(p: Posting, side: Side)
    ensures Total([p], side) == if p.side == side then p.amount else 0
  {
    assert [p][..0] == [];
  }

  lemma TotalOfSplit(s: Split, merchantId: string)
    requires s.asset.OperatorEcash? || s.asset.SettlementAsset?
    ensures Total(PostingsOf(s, merchantId), Debit) == s.gross
    ensures Total(PostingsOf(s, merchantId), Credit) == s.net + s.fee
  {
    var gross, net, fee := Posting(s.asset, s.gross, Debit), Posting(MerchantPayable(merchantId), s.net, Credit),
                           Posting(FeeRevenue, s.fee, Credit);
    var rest := if s.fee > 0 then [fee] else [];
    assert PostingsOf(s, merchantId) == [gross] + [net] + rest;
    forall side: Side
      ensures Total(PostingsOf(s, merchantId), side) == Total([gross], side) + Total([net], side) + Total(rest, side)
    {
      TotalOfConcat([gross] + [net], rest, side);
      TotalOfConcat([gross], [net], side);
    }
    forall p: Posting, side: Side ensures Total([p], side) == if p.side == side then p.amount else 0 {
      TotalOfOne(p, side);
    }
  }

  lemma {:induction false} FilteredKeeps(postings: seq<Posting>, keep: Posting -> bool)
    ensures forall p :: p in Filtered(postings, keep) ==> keep(p) && p in postings
  {
    if postings != [] { FilteredKeeps(postings[..|postings| - 1], keep); }
  }

  lemma {:induction false} FilterSplitsMultiset(postings: seq<Posting>, r: Reference)
    ensures var assets := Filtered(postings, p => IsAssetDebit(p));
            var merchants := Filtered(postings, p => IsMerchantCredit(p, r));
            var fees := Filtered(postings, p => IsFeeCredit(p));
            && |assets| + |merchants| + |fees| <= |postings|
            && (|assets| + |merchants| + |fees| == |postings| ==>
                  multiset(postings) == multiset(assets + merchants + fees))
  {
    if postings != [] {
      var front, last := postings[..|postings| - 1], postings[|postings| - 1];
      FilterSplitsMultiset(front, r);
      assert postings == front + [last];
    }
  }

  lemma {:induction false} TotalIsOrderFree(a: seq<Posting>, b: seq<Posting>, side: Side)
    requires multiset(a) == multiset(b)
    ensures Total(a, side) == Total(b, side)
  {
    if a == [] {
      assert |multiset(b)| == |b|;
    } else {
      var last := a[|a| - 1];
      assert a == a[..|a| - 1] + [last];
      assert last in multiset(b);
      var i :| 0 <= i < |b| && b[i] == last;
      RemovingOne(b, i, side);
      TotalIsOrderFree(a[..|a| - 1], b[..i] + b[i + 1..], side);
    }
  }

  lemma RemovingOne(b: seq<Posting>, i: nat, side: Side)
    requires i < |b|
    ensures multiset(b[..i] + b[i + 1..]) == multiset(b) - multiset{b[i]}
    ensures Total(b, side) == Total(b[..i] + b[i + 1..], side) + if b[i].side == side then b[i].amount else 0
  {
    var before, after := b[..i], b[i + 1..];
    assert b == before + ([b[i]] + after);
    TotalOfConcat(before, after, side);
    TotalOfConcat(before, [b[i]] + after, side);
    TotalOfConcat([b[i]], after, side);
    TotalOfOne(b[i], side);
  }

  lemma {:induction false} TotalOfConcat(a: seq<Posting>, b: seq<Posting>, side: Side)
    ensures Total(a + b, side) == Total(a, side) + Total(b, side)
  {
    if b == [] {
      assert a + b == a;
    } else {
      TotalOfConcat(a, b[..|b| - 1], side);
      assert (a + b)[..|a + b| - 1] == a + b[..|b| - 1];
    }
  }

  // --------------------------------------------------- accepting a payment

  datatype PaymentInput = PaymentInput(
    acceptedAt: nat, asset: Account, effectiveAt: nat, fee: nat, journalEntryId: string,
    operatorId: string, paymentId: string, mode: Mode)

  datatype Invoice = Invoice(
    id: string, merchantId: string, amount: nat, createdAt: nat, expiresAt: nat, paidAt: Option<nat>)

  datatype Accepted = Accepted(invoice: Invoice, entry: Entry, gross: nat, fee: nat, net: nat)

  datatype InvoiceError =
    | InvalidInvoice | InvalidTransition | PaymentBeforeCreation | PaymentAfterExpiry
    | RecordedBeforeAcceptance | Refused(error: LedgerError)

  /** createInvoiceV1's conditions. */
  predicate ValidInvoice(i: Invoice) {
    0 < i.amount <= MAX_SAFE_INTEGER && i.createdAt < i.expiresAt
  }

  function CreateInvoicePayment(invoice: Invoice, input: PaymentInput): Result<Entry, LedgerError> {
    if !AssetFitsMode(input.asset, input.operatorId, input.mode) then Err(AccountModeMismatch)
    else if invoice.amount == 0 || input.fee >= invoice.amount then Err(FeeNotLessThanGross)
    else
      CreateEntry(input.journalEntryId, input.effectiveAt,
                  PostingsOf(Split(input.asset, invoice.amount, invoice.amount - input.fee, input.fee), invoice.merchantId),
                  Reference(invoice.id, invoice.merchantId, input.operatorId, input.paymentId, input.mode))
  }

  function AcceptInvoicePayment(invoice: Invoice, input: PaymentInput): Result<Accepted, InvoiceError> {
    if invoice.paidAt.Some? then Err(InvalidTransition)
    else if !ValidInvoice(invoice) then Err(InvalidInvoice)
    else if input.acceptedAt < invoice.createdAt then Err(PaymentBeforeCreation)
    else if input.acceptedAt >= invoice.expiresAt then Err(PaymentAfterExpiry)
    else if input.effectiveAt < input.acceptedAt then Err(RecordedBeforeAcceptance)
    else match CreateInvoicePayment(invoice, input)
      case Err(e) => Err(Refused(e))
      case Ok(entry) =>
        Ok(Accepted(invoice.(paidAt := Some(input.acceptedAt)), entry, invoice.amount, input.fee, invoice.amount - input.fee))
  }

  /** The journal of a payment always passes entry validation: only the fee and the account can be wrong. */
  lemma PaymentJournalIsAlwaysValid(invoice: Invoice, input: PaymentInput)
    requires ValidInvoice(invoice)
    ensures CreateInvoicePayment(invoice, input).Ok?
            <==> AssetFitsMode(input.asset, input.operatorId, input.mode) && input.fee < invoice.amount
  {
    if AssetFitsMode(input.asset, input.operatorId, input.mode) && input.fee < invoice.amount {
      var s := Split(input.asset, invoice.amount, invoice.amount - input.fee, input.fee);
      var ps := PostingsOf(s, invoice.merchantId);
      var r := Reference(invoice.id, invoice.merchantId, input.operatorId, input.paymentId, input.mode);
      TotalOfSplit(s, invoice.merchantId);
      SplitPassesShapeCheck(s, r);
      assert forall i :: 0 <= i < |ps| ==> !BadPosting(ps[i]);
    }
  }

  lemma SplitPassesShapeCheck(s: Split, r: Reference)
    requires AssetFitsMode(s.asset, r.operatorId, r.mode)
    ensures CheckInvoicePaymentPostings(PostingsOf(s, r.merchantId), r).None?
  {
    var ps := PostingsOf(s, r.merchantId);
    var asset, merchant, fee := p => IsAssetDebit(p), p => IsMerchantCredit(p, r), p => IsFeeCredit(p);
    assert ps[..1] == [ps[0]] && ps[..1][..0] == [];
    assert ps[..2] == [ps[0], ps[1]] && ps[..2][..1] == [ps[0]];
    FilteredOnPair(ps[0], ps[1], asset);
    FilteredOnPair(ps[0], ps[1], merchant);
    FilteredOnPair(ps[0], ps[1], fee);
    if s.fee > 0 {
      assert ps == ps[..2] + [ps[2]];
    } else {
      assert ps == ps[..2];
    }
  }

  lemma FilteredOnPair(p: Posting, q: Posting, keep: Posting -> bool)
    ensures Filtered([p, q], keep) == (if keep(p) then [p] else []) + (if keep(q) then [q] else [])
  {
    assert [p, q][..1] == [p] && [p][..0] == [];
    assert Filtered([p], keep) == if keep(p) then [p] else [];
  }

  /**
   * Acceptance succeeds exactly in the open window with a fee below the amount and a fitting account, and then
   * fixes the paid invoice, the journal entry and the amounts.
   */
  lemma AcceptanceCondition(invoice: Invoice, input: PaymentInput)
    ensures AcceptInvoicePayment(invoice, input).Ok?
            <==> && invoice.paidAt.None? && ValidInvoice(invoice)
                 && invoice.createdAt <= input.acceptedAt < invoice.expiresAt
                 && input.acceptedAt <= input.effectiveAt
                 && input.fee < invoice.amount
                 && AssetFitsMode(input.asset, input.operatorId, input.mode)
    ensures AcceptInvoicePayment(invoice, input).Ok? ==>
              var a := AcceptInvoicePayment(invoice, input).value;
              && a.invoice == invoice.(paidAt := Some(input.acceptedAt))
              && a.gross == invoice.amount && a.fee == input.fee && a.gross == a.net + a.fee
              && a.entry.id == input.journalEntryId && a.entry.effectiveAt == input.effectiveAt
              && a.entry.reference
                 == Reference(invoice.id, invoice.merchantId, input.operatorId, input.paymentId, input.mode)
              && a.entry.postings == PostingsOf(Split(input.asset, a.gross, a.net, a.fee), invoice.merchantId)
              && Total(a.entry.postings, Debit) == a.gross && Total(a.entry.postings, Credit) == a.gross
  {
    if AcceptInvoicePayment(invoice, input).Ok? {
      TotalOfSplit(Split(input.asset, invoice.amount, invoice.amount - input.fee, input.fee), invoice.merchantId);
    }
    if ValidInvoice(invoice) { PaymentJournalIsAlwaysValid(invoice, input); }
  }

  // ------------------------------------------------------------ batches

  predicate BatchUnique(entries: seq<Entry>) {
    forall i, k :: 0 <= i < k < |entries| ==>
      && entries[i].id != entries[k].id
      && entries[i].reference.invoiceId != entries[k].reference.invoiceId
      && entries[i].reference.paymentId != entries[k].reference.paymentId
  }

  /** What the entry at `k` repeats of the entries before it; an id counts before an invoice, that before a payment. */
  function RepeatAt(entries: seq<Entry>, k: nat): Option<LedgerError>
    requires k < |entries|
  {
    if exists i :: 0 <= i < k && entries[i].id == entries[k].id then Some(DuplicateJournalEntry)
    else if exists i :: 0 <= i < k && entries[i].reference.invoiceId == entries[k].reference.invoiceId then
      Some(DuplicateInvoicePayment)
    else if exists i :: 0 <= i < k && entries[i].reference.paymentId == entries[k].reference.paymentId then
      Some(DuplicatePayment)
    else None
  }

  /**
   * The duplicate check accepts a batch exactly when ids, invoices and payments are pairwise distinct, and else
   * names what the first repeating entry repeats.
   */
  method AssertJournalBatchUnique(entries: seq<Entry>) returns (duplicate: Option<LedgerError>)
    ensures duplicate == None <==> BatchUnique(entries)
    ensures duplicate.Some? ==> exists k :: 0 <= k < |entries| && BatchUnique(entries[..k]) && RepeatAt(entries, k) == duplicate
  {
    var entryIds: set<string>, invoiceIds: set<string>, paymentIds: set<string> := {}, {}, {};
    for index := 0 to |entries|
      invariant BatchUnique(entries[..index])
      invariant entryIds == set i | 0 <= i < index :: entries[i].id
      invariant invoiceIds == set i | 0 <= i < index :: entries[i].reference.invoiceId
      invariant paymentIds == set i | 0 <= i < index :: entries[i].reference.paymentId
    {
      var entry := entries[index];
      if entry.id in entryIds {
        assert RepeatAt(entries, index) == Some(DuplicateJournalEntry);
        return Some(DuplicateJournalEntry);
      }
      if entry.reference.invoiceId in invoiceIds {
        assert RepeatAt(entries, index) == Some(DuplicateInvoicePayment);
        return Some(DuplicateInvoicePayment);
      }
      if entry.reference.paymentId in paymentIds {
        assert RepeatAt(entries, index) == Some(DuplicatePayment);
        return Some(DuplicatePayment);
      }
      entryIds := entryIds + {entry.id};
      invoiceIds := invoiceIds + {entry.reference.invoiceId};
      paymentIds := paymentIds + {entry.reference.paymentId};
    }
    assert entries[..|entries|] == entries;
    return None;
  }
}
