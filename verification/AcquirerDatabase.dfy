/**
 * The acquirer's database as one mutable object. A repository method reads and
 * writes its tables one statement at a time; a method that fails is rolled back.
 */
module AcquirerDatabase {
  import opened Outcomes
  import opened MeltRecords
  import opened MeltStore
  import opened MeltInvariants
  import opened MeltCalls
  import Ledger

  class Database {
    var invoices: map<string, InvoiceRow>
    var payments: map<string, PaymentRow>
    var proofClaims: map<(string, nat), string>
    var invoiceClaims: map<string, string>
    var journals: map<string, Ledger.Accepted>
    var keys: map<Key, string>

    constructor ()
      ensures Contents() == NoTables
    {
      invoices, payments, proofClaims, invoiceClaims, journals, keys := map[], map[], map[], map[], map[], map[];
    }

    function Contents(): Tables
      reads this
    {
      Tables(invoices, payments, proofClaims, invoiceClaims, journals, keys)
    }

    /** ROLLBACK. */
    method Restore(saved: Tables)
      modifies this
      ensures Contents() == saved
    {
      invoices, payments, proofClaims := saved.invoices, saved.payments, saved.proofClaims;
      invoiceClaims, journals, keys := saved.invoiceClaims, saved.journals, saved.keys;
    }
  }

  /** A transaction body does what its specification says; when it fails it may leave anything behind. */
  ghost predicate Performs(spec: Outcome, after: Tables, r: Result<bool, StoreError>) {
    match spec
    case Ok(done) => r == Ok(done.replayed) && after == done.tables
    case Err(e) => r == Err(e)
  }

  /** A whole transaction: on failure nothing has changed. */
  ghost predicate Commits(before: Tables, spec: Outcome, after: Tables, r: Result<bool, StoreError>) {
    Performs(spec, after, r) && (spec.Err? ==> after == before)
  }

  /** So every committed repository method is one step of a run, and keeps what runs keep. */
  lemma CommitIsOneCall(before: Tables, c: Call, after: Tables, r: Result<bool, StoreError>)
    requires Commits(before, Apply(before, c), after, r)
    ensures after == After(before, c)
    ensures Sound(before) ==> Sound(after) && TablesGrow(before, after)
  {
    hide Sound, TablesGrow, Apply;
    if Sound(before) { ApplyKeeps(before, c); }
  }
}
