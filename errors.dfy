/**
 * `handleError` and `getErrorData` (src/services/utils.ts): the first-match
 * classification of a failed HTTP call into the plain result object
 * `{status: false, code, message}` that every service call hands back on
 * failure.
 *
 * The error is an arbitrary JavaScript value, read the way the source reads
 * it: by truthiness, strict equality and property access.
 */
module ErrorHandling {
  import opened Optional
  import opened JsValue

  /** The object `{status, code, message}` the normaliser builds. */
  datatype Normalized = Normalized(status: bool, code: Value, message: Value)

  const GenericMessage := "Something went wrong. Please try again later."

  function Failure(code: Value, message: string): Normalized {
    Normalized(false, code, Str(message))
  }

  /** `error && error.message === m` */
  predicate HasMessage(error: Value, m: string) {
    Truthy(error) && Member(error, "message") == Str(m)
  }

  /** `error.response` */
  function Response(error: Value): Value {
    Member(error, "response")
  }

  /** `error.response.status` */
  function StatusOf(error: Value): Value {
    Member(Response(error), "status")
  }

  /** `error.response.data` */
  function Body(error: Value): Value {
    Member(Response(error), "data")
  }

  /**
   * `getErrorData(error)`: the server's own explanation, present when the
   * body has a truthy `message` or `detail`; the message wins over the detail.
   * None stands for the `null` the source returns otherwise.
   */
  function GetErrorData(error: Value): (r: Option<Normalized>)
    ensures r.Some? <==> Truthy(Member(Body(error), "message")) || Truthy(Member(Body(error), "detail"))
    ensures r.Some? ==> !r.value.status && r.value.code == StatusOf(error)
    ensures r.Some? && Truthy(Member(Body(error), "message")) ==> r.value.message == Member(Body(error), "message")
    ensures r.Some? && !Truthy(Member(Body(error), "message")) ==> r.value.message == Member(Body(error), "detail")
  {
    var data := Body(error);
    if Truthy(data) && Truthy(Or(Member(data, "message"), Member(data, "detail"))) then
      Some(Normalized(false, StatusOf(error), Or(Member(data, "message"), Member(data, "detail"))))
    else
      None
  }

  /** A status whose body may explain it: the body's text, else `word`. */
  function Explained(error: Value, word: string): Normalized {
    match GetErrorData(error)
    case Some(d) => d
    case None => Normalized(false, StatusOf(error), Str(word))
  }

  /** `handleError(error)` */
  function HandleError(error: Value): (r: Normalized)
    ensures r == Expected(error)
    ensures !r.status
    ensures r.code == Null || (r.code.Num? && r.code.n in StatusLabels)
  {
    if HasMessage(error, "canceled") then Failure(Null, "canceled")
    else if HasMessage(error, "timeout") then Failure(Null, "timeout")
    else if Truthy(error) && Truthy(Response(error)) then
      var status := StatusOf(error);
      if status == Num(400) then Explained(error, "Bad request")
      else if status == Num(401) then Explained(error, "Forbidden")
      else if status == Num(403) then Explained(error, "Unauthorized")
      else if status == Num(404) then Failure(status, "Not found")
      else if status == Num(409) then Failure(status, "Conflict")
      else if status == Num(413) then Failure(status, "Selected profile picture is too large")
      else Failure(Null, GenericMessage)
    else Failure(Null, GenericMessage)
  }

  // ---------------------------------------------------------------------------
  // The same classification, written as a table

  /** The message each recognised status gets when nothing else applies. */
  const StatusLabels: map<int, string> := map[
    400 := "Bad request",
    401 := "Forbidden",
    403 := "Unauthorized",
    404 := "Not found",
    409 := "Conflict",
    413 := "Selected profile picture is too large"]

  /** The statuses whose response body, when it explains itself, wins over the label. */
  const BodyFirst: set<int> := {400, 401, 403}

  /** Why a call failed, in the order the normaliser asks. */
  datatype Cause = Canceled | TimedOut | Status(code: int) | Unknown

  function CauseOf(error: Value): Cause {
    if HasMessage(error, "canceled") then Canceled
    else if HasMessage(error, "timeout") then TimedOut
    else if Truthy(error) && Truthy(Response(error)) && StatusOf(error).Num? && StatusOf(error).n in StatusLabels then
      Status(StatusOf(error).n)
    else Unknown
  }

  /** The result the table prescribes for each cause. */
  function Expected(error: Value): Normalized {
    match CauseOf(error)
    case Canceled => Failure(Null, "canceled")
    case TimedOut => Failure(Null, "timeout")
    case Unknown => Failure(Null, GenericMessage)
    case Status(n) =>
      var body := Body(error);
      var explanation := Or(Member(body, "message"), Member(body, "detail"));
      if n in BodyFirst && Truthy(explanation) then Normalized(false, Num(n), explanation)
      else Failure(Num(n), StatusLabels[n])
  }

  // ---------------------------------------------------------------------------
  // The cases one by one

  /** Cancellation is recognised first, whatever else the error holds. */
  lemma CanceledFirst(error: Value)
    requires HasMessage(error, "canceled")
    ensures HandleError(error) == Failure(Null, "canceled")
  {
  }

  lemma TimeoutSecond(error: Value)
    requires HasMessage(error, "timeout")
    ensures HandleError(error) == Failure(Null, "timeout")
  {
  }

  /** 400, 401 and 403 report the body's `message`, or else its `detail`, under their own code. */
  lemma BodyExplains(error: Value, n: int)
    requires CauseOf(error) == Status(n) && n in BodyFirst
    requires Truthy(Member(Body(error), "message")) || Truthy(Member(Body(error), "detail"))
    ensures HandleError(error).code == Num(n)
    ensures HandleError(error).message ==
      if Truthy(Member(Body(error), "message")) then Member(Body(error), "message") else Member(Body(error), "detail")
  {
  }

  /** Without an explanation in the body the labels apply; 401 and 403 keep the source's swapped words. */
  lemma DefaultLabels(error: Value)
    requires !HasMessage(error, "canceled") && !HasMessage(error, "timeout")
    requires Truthy(error) && Truthy(Response(error))
    requires !Truthy(Member(Body(error), "message")) && !Truthy(Member(Body(error), "detail"))
    ensures StatusOf(error) == Num(400) ==> HandleError(error) == Failure(Num(400), "Bad request")
    ensures StatusOf(error) == Num(401) ==> HandleError(error) == Failure(Num(401), "Forbidden")
    ensures StatusOf(error) == Num(403) ==> HandleError(error) == Failure(Num(403), "Unauthorized")
  {
  }

  /** 404, 409 and 413 have fixed messages; the body plays no part. */
  lemma FixedLabels(error: Value, n: int)
    requires CauseOf(error) == Status(n) && n !in BodyFirst
    ensures HandleError(error) == Failure(Num(n), StatusLabels[n])
    ensures n == 404 || n == 409 || n == 413
  {
  }

  /** Everything else, a missing error or response and every other status included, is generic. */
  lemma Fallback(error: Value)
    requires CauseOf(error) == Unknown
    ensures HandleError(error) == Failure(Null, GenericMessage)
  {
  }

  lemma FallbackExamples(status: int)
    requires status !in StatusLabels
    ensures HandleError(Null) == Failure(Null, GenericMessage)
    ensures HandleError(Obj([Field("message", Str("Network Error"))])) == Failure(Null, GenericMessage)
    ensures HandleError(Obj([Field("response", Obj([Field("status", Num(status))]))])) == Failure(Null, GenericMessage)
  {
    var e := Obj([Field("response", Obj([Field("status", Num(status))]))]);
    assert Response(e) == Obj([Field("status", Num(status))]);
    assert StatusOf(e) == Num(status);
    assert e.fields[0].key != "message";
    LookupMissing(e.fields, "message");
    assert 400 in StatusLabels && 401 in StatusLabels && 403 in StatusLabels;
    assert 404 in StatusLabels && 409 in StatusLabels && 413 in StatusLabels;
  }
}
