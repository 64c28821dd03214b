/**
 * The request interceptor of the shared HTTP client (src/services/api.ts):
 * before each request it reads the stored access token and, when the token is
 * truthy, sets the `Authorization` header of the outgoing request config in
 * place.
 */
module Api {
  import opened JsValue
  import opened TokenStorage
  import ErrorHandling
  import opened JsonCodec

  const AuthorizationHeader := "Authorization"

  /** The message the client is configured to reject a timed-out request with. */
  const TimeoutErrorMessage := "timeout"

  /** The headers after the interceptor: `Bearer <token>` added for a truthy token, nothing otherwise. */
  function Authorize(headers: map<string, string>, token: Value): (r: map<string, string>)
    ensures Truthy(token) ==> r.Keys == headers.Keys + {AuthorizationHeader}
    ensures Truthy(token) ==> r[AuthorizationHeader] == "Bearer " + ToString(token)
    ensures !Truthy(token) ==> r == headers
    ensures forall h | h in headers && h != AuthorizationHeader :: h in r && r[h] == headers[h]
  {
    if Truthy(token) then headers[AuthorizationHeader := "Bearer " + ToString(token)] else headers
  }

  /** An outgoing request as the interceptor receives it. */
  class RequestConfig {
    var headers: map<string, string>
    var url: string
    var httpMethod: string
    var data: Value

    constructor (headers: map<string, string>, url: string, httpMethod: string, data: Value)
      ensures this.headers == headers && this.url == url && this.httpMethod == httpMethod && this.data == data
    {
      this.headers := headers;
      this.url := url;
      this.httpMethod := httpMethod;
      this.data := data;
    }
  }

  /**
   * The request interceptor: the same config object comes back, its headers
   * authorized with the stored session's `access` field, every other field
   * as it was.
   */
  method Intercept(config: RequestConfig, tokens: TokenService) returns (out: RequestConfig)
    modifies config`headers
    ensures out == config
    ensures config.headers == Authorize(old(config.headers), AccessTokenIn(tokens.storage))
    ensures config.url == old(config.url) && config.httpMethod == old(config.httpMethod) && config.data == old(config.data)
    ensures tokens.storage == old(tokens.storage)
  {
    var token := tokens.GetLocalAccessToken();
    if Truthy(token) {
      config.headers := config.headers[AuthorizationHeader := "Bearer " + ToString(token)];
    }
    out := config;
  }

  /** The error a timed-out request rejects with: its message is the configured one and it has no response. */
  function TimeoutError(code: string): (e: Value)
    ensures Member(e, "message") == Str(TimeoutErrorMessage)
    ensures Member(e, "response") == Undefined
  {
    var fs := [Field("code", Str(code)), Field("message", Str(TimeoutErrorMessage))];
    assert !HasKey(fs, "response") by {
      assert fs[0].key != "response" && fs[1].key != "response";
    }
    LookupMissing(fs, "response");
    Obj(fs)
  }

  /** A timed-out request is normalised to the timeout result. */
  lemma TimeoutNormalized(code: string)
    ensures ErrorHandling.HandleError(TimeoutError(code)) == ErrorHandling.Failure(Null, "timeout")
  {
  }

  /** Once a session with a truthy token is stored, every request carries it as a bearer token. */
  lemma BearerAfterLogin(items: map<string, string>, session: Value, headers: map<string, string>)
    requires IsJson(session) && Truthy(Member(session, "access"))
    ensures var token := AccessTokenIn(items[UserKey := StoredText(session)]);
      token == Member(session, "access") &&
      Authorize(headers, token) == headers[AuthorizationHeader := "Bearer " + ToString(Member(session, "access"))]
  {
    TokenAfterSet(items, session);
  }
}
