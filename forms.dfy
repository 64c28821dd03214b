/**
 * The part of zod's string and object checks the forms use. A schema is
 * modelled by the set of issues it reports for an input: each issue names the
 * field it is attached to and its message, and an input is accepted exactly
 * when there are none.
 */
module Forms {
  datatype Issue = Issue(path: string, message: string)

  /** zod's default message for a string that fails `.email()`. */
  const InvalidEmail := "Invalid email"

  /** `.min(n, {message})` */
  function MinLength(path: string, s: string, n: nat, message: string): (r: set<Issue>)
    ensures r == {} <==> |s| >= n
    ensures r <= {Issue(path, message)}
  {
    if |s| < n then {Issue(path, message)} else {}
  }

  /** `.max(n, {message})` */
  function MaxLength(path: string, s: string, n: nat, message: string): (r: set<Issue>)
    ensures r == {} <==> |s| <= n
    ensures r <= {Issue(path, message)}
  {
    if |s| > n then {Issue(path, message)} else {}
  }

  /** `.email()`, with the format test as a parameter. */
  function EmailFormat(path: string, s: string, isEmail: string -> bool): (r: set<Issue>)
    ensures r == {} <==> isEmail(s)
    ensures r <= {Issue(path, InvalidEmail)}
  {
    if isEmail(s) then {} else {Issue(path, InvalidEmail)}
  }
}
