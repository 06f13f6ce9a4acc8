/** Optional values and error-carrying results shared by every component. */
module Outcomes {

  datatype Option<+T> = None | Some(value: T)

  datatype Result<+T, +E> = Ok(value: T) | Err(error: E)

  /** Checks made in order: this is the error of the first that fails. */
  predicate FailsFirst<E(==)>(checks: seq<(bool, E)>, e: E) {
    exists k :: 0 <= k < |checks| && !checks[k].0 && checks[k].1 == e && forall i :: 0 <= i < k ==> checks[i].0
  }

  predicate AllPass<E>(checks: seq<(bool, E)>) {
    forall k :: 0 <= k < |checks| ==> checks[k].0
  }

  /** The first failing check decides: its error is the only one. */
  lemma FirstFailure<E>(checks: seq<(bool, E)>, k: nat)
    requires k < |checks| && !checks[k].0 && forall i :: 0 <= i < k ==> checks[i].0
    ensures !AllPass(checks) && forall e :: FailsFirst(checks, e) <==> e == checks[k].1
  {
    forall e | FailsFirst(checks, e) ensures e == checks[k].1 {
      var n :| 0 <= n < |checks| && !checks[n].0 && checks[n].1 == e && forall i :: 0 <= i < n ==> checks[i].0;
      assert n == k;
    }
  }
}
