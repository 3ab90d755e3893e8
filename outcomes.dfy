/** Result shapes shared by the validator and the shipping service. */
module Outcomes {

  datatype Option<+T> = None | Some(value: T)

  /** A value, or the error that stopped the computation producing it. */
  datatype Result<+R, +E> = Success(value: R) | Failure(error: E)

  /** What a validator returns: no error (`Pass`) or the error it reports. */
  datatype Outcome<+E> = Pass | Fail(error: E)

  /**
   * The outcome of running `checks` in order and stopping at the first one
   * that fails: no check after a failing one is reported.
   */
  function FirstFailure<E(==)>(checks: seq<Outcome<E>>): (r: Outcome<E>)
    ensures r.Pass? <==> forall i :: 0 <= i < |checks| ==> checks[i].Pass?
    ensures r.Fail? ==>
      exists i :: 0 <= i < |checks| && checks[i] == r &&
        forall j :: 0 <= j < i ==> checks[j].Pass?
  {
    if checks == [] then Pass
    else if checks[0].Fail? then checks[0]
    else
      var rest := FirstFailure(checks[1..]);
      assert rest.Fail? ==>
        exists i :: 0 <= i < |checks| && checks[i] == rest && forall j :: 0 <= j < i ==> checks[j].Pass?
      by {
        if rest.Fail? {
          var k :| 0 <= k < |checks[1..]| && checks[1..][k] == rest &&
            forall j :: 0 <= j < k ==> checks[1..][j].Pass?;
          assert checks[k + 1] == rest;
          assert forall j :: 0 <= j < k + 1 ==> checks[j].Pass? by {
            forall j | 0 <= j < k + 1 ensures checks[j].Pass? {
              if j > 0 { assert checks[j] == checks[1..][j - 1]; }
            }
          }
        }
      }
      rest
  }
}
