/**
 * The shape shared by the request-body schemas: a schema reports, field by
 * field and in the order its keys are declared, the message of every check
 * that fails; a body is accepted when no message is reported.
 */
module Schema {

  /** One check of a field: nothing when it passes, its message when it fails. */
  function Check(ok: bool, message: string): (r: seq<string>)
    ensures r == [] <==> ok
    ensures !ok ==> r == [message]
  {
    if ok then [] else [message]
  }

  /** A `.min(n, message)` check on a string. */
  function MinLength(s: string, n: nat, message: string): (r: seq<string>)
    ensures r == [] <==> |s| >= n
    ensures |s| < n ==> r == [message]
  {
    Check(|s| >= n, message)
  }
}
