/**
 * Result shaping of the authentication calls (src/services/auth/auth.service.ts).
 * Each call posts its payload to one endpoint; the outcome of the request is
 * an input, and the call turns it into the value its caller receives.
 */
module AuthService {
  import opened Optional
  import opened JsValue
  import opened ErrorHandling

  /** How the request settled: a response, or a rejection with an error. */
  datatype HttpOutcome = Resolved(status: int, data: Value) | Rejected(error: Value)

  /**
   * What a call returns: `false` outside a browser, `undefined` for a response
   * with another status, `{status: true, data}` on the expected status, and the
   * normalised error on a rejection.
   */
  datatype CallResult = NotInBrowser | NoResult | Succeeded(data: Value) | Failed(error: Normalized)

  /** A POST request the call issues. */
  datatype Request = Post(path: string, payload: Value)

  /** The request a call issues (None when it issues none) and what it returns. */
  datatype Call = Call(sent: Option<Request>, result: CallResult)

  /** The common shape of the three calls. */
  function Shape(isBrowser: bool, path: string, expected: int, payload: Value, outcome: HttpOutcome): (c: Call)
    ensures c.sent.None? <==> !isBrowser
    ensures c.sent.Some? ==> c.sent.value == Post(path, payload)
    ensures c.result.NotInBrowser? <==> !isBrowser
    ensures c.result.Succeeded? <==> isBrowser && outcome.Resolved? && outcome.status == expected
    ensures c.result.Succeeded? ==> c.result.data == outcome.data
    ensures c.result.NoResult? <==> isBrowser && outcome.Resolved? && outcome.status != expected
    ensures c.result.Failed? <==> isBrowser && outcome.Rejected?
    ensures c.result.Failed? ==> c.result.error == HandleError(outcome.error) && !c.result.error.status
  {
    if !isBrowser then Call(None, NotInBrowser)
    else
      var result :=
        match outcome
        case Resolved(status, data) => if status == expected then Succeeded(data) else NoResult
        case Rejected(error) => Failed(HandleError(error));
      Call(Some(Post(path, payload)), result)
  }

  /** `Register`: posts to "/register/" and expects 201. */
  function Register(isBrowser: bool, payload: Value, outcome: HttpOutcome): (c: Call)
    ensures c.sent == if isBrowser then Some(Post("/register/", payload)) else None
    ensures c.result.Succeeded? <==> isBrowser && outcome.Resolved? && outcome.status == 201
  {
    Shape(isBrowser, "/register/", 201, payload, outcome)
  }

  /** `Login`: posts to "/login/" and expects 200. */
  function Login(isBrowser: bool, payload: Value, outcome: HttpOutcome): (c: Call)
    ensures c.sent == if isBrowser then Some(Post("/login/", payload)) else None
    ensures c.result.Succeeded? <==> isBrowser && outcome.Resolved? && outcome.status == 200
  {
    Shape(isBrowser, "/login/", 200, payload, outcome)
  }

  /** `Logout`: posts to "/logout/" and expects 201. */
  function Logout(isBrowser: bool, payload: Value, outcome: HttpOutcome): (c: Call)
    ensures c.sent == if isBrowser then Some(Post("/logout/", payload)) else None
    ensures c.result.Succeeded? <==> isBrowser && outcome.Resolved? && outcome.status == 201
  {
    Shape(isBrowser, "/logout/", 201, payload, outcome)
  }

  /** Outside a browser a call issues nothing and returns `false`, whatever the outcome would have been. */
  lemma OutsideBrowser(payload: Value, outcome: HttpOutcome)
    ensures Register(false, payload, outcome) == Call(None, NotInBrowser)
    ensures Login(false, payload, outcome) == Call(None, NotInBrowser)
    ensures Logout(false, payload, outcome) == Call(None, NotInBrowser)
  {
  }

  /** Register succeeds exactly on 201, Login exactly on 200, Logout exactly on 201, with the response body. */
  lemma SuccessStatuses(payload: Value, status: int, data: Value)
    ensures Register(true, payload, Resolved(status, data)).result == if status == 201 then Succeeded(data) else NoResult
    ensures Login(true, payload, Resolved(status, data)).result == if status == 200 then Succeeded(data) else NoResult
    ensures Logout(true, payload, Resolved(status, data)).result == if status == 201 then Succeeded(data) else NoResult
  {
  }

  /** A rejected call returns the normalised error, which always has `status: false`. */
  lemma RejectedCalls(payload: Value, error: Value)
    ensures Register(true, payload, Rejected(error)).result == Failed(HandleError(error))
    ensures Login(true, payload, Rejected(error)).result == Failed(HandleError(error))
    ensures Logout(true, payload, Rejected(error)).result == Failed(HandleError(error))
    ensures !HandleError(error).status
  {
  }
}
