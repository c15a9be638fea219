/** The two web-framework collaborators the authenticator works through: the
    per-request context (the request it reads, the response it writes) and the
    per-client session (a string-keyed map with a save operation).  Only what
    the authenticator uses of them is modelled. */
module Web {

  datatype Option<T> = None | Some(value: T)

  /** The answer of a remote or fallible call that returns nothing useful. */
  datatype Outcome = Pass | Fail

  /** The answer of a remote call that returns a value on success. */
  datatype Remote<T> = Ok(value: T) | Err

  /** Where a redirect sends the browser: a URL given as text, or the
      provider's authorization endpoint with the query parameters of an
      authorization request (section 4.1.1 of RFC 6749).  The query encoding
      itself belongs to the OAuth2 client library and is not modelled. */
  datatype Location =
    | Address(url: string)
    | AuthorizationRequest(endpoint: string, clientId: string, redirectUri: string,
                           scopes: seq<string>, state: string)

  /** A JSON object whose values are strings or null. */
  type Json = map<string, Option<string>>

  /** One thing a handler does to the response, in the order it does it. */
  datatype Action =
    | WriteStatus(code: int)
    | Redirect(code: int, location: Location)
    | SetHeader(name: string, value: string)
    | WriteJson(code: int, body: Json)
    | Next

  /** The errors the authenticator attaches to a context or logs. */
  datatype Failure =
    | ProviderError
    | LoginSessionError
    | RevokeAccessTokenError
    | RevokeRefreshTokenError
    | InvalidState
    | TokenExchangeError
    | IdTokenNotFound
    | IdTokenVerifyError
    | UserInfoError
    | SessionStoreError

  /** What has been done to the response so far: the writes in order, the
      errors attached with `Error`/`AbortWithError`, whether the handler
      chain was aborted, and whether a panic reached the recovery middleware. */
  datatype Response = Response(actions: seq<Action>, errors: seq<Failure>, aborted: bool, panicked: bool)
  {
    function Write(a: Action): Response {
      this.(actions := actions + [a])
    }

    function Record(f: Failure): Response {
      this.(errors := errors + [f])
    }

    /** `AbortWithError(code, f)`: status written, chain aborted, error attached. */
    function AbortWith(code: int, f: Failure): Response {
      Write(WriteStatus(code)).(aborted := true).Record(f)
    }

    /** A panic caught by the recovery middleware, which aborts with 500. */
    function Recovered(): Response {
      Write(WriteStatus(500)).(aborted := true, panicked := true)
    }
  }

  const Untouched := Response([], [], false, false)

  /** A request's query parameter: its value, or "" when it is absent. */
  function QueryValue(query: map<string, string>, key: string): string {
    if key in query then query[key] else ""
  }

  /** A session entry: the value, or `None` (a nil interface) when absent. */
  function Lookup(values: map<string, string>, key: string): Option<string> {
    if key in values then Some(values[key]) else None
  }

  /** The request context: a read-only request and a response written in place. */
  class Context {
    const query: map<string, string>
    const referer: string
    const host: string
    var response: Response

    constructor (query: map<string, string>, referer: string, host: string)
      ensures this.query == query && this.referer == referer && this.host == host
      ensures response == Untouched
    {
      this.query := query;
      this.referer := referer;
      this.host := host;
      response := Untouched;
    }

    /** `Query(key)`: the parameter's value, or "" when it is absent. */
    function Query(key: string): string {
      QueryValue(query, key)
    }

    method Redirect(code: int, location: Location)
      modifies this
      ensures response == old(response).Write(Action.Redirect(code, location))
    {
      response := response.Write(Action.Redirect(code, location));
    }

    method Status(code: int)
      modifies this
      ensures response == old(response).Write(WriteStatus(code))
    {
      response := response.Write(WriteStatus(code));
    }

    method Header(name: string, value: string)
      modifies this
      ensures response == old(response).Write(SetHeader(name, value))
    {
      response := response.Write(SetHeader(name, value));
    }

    method JSON(code: int, body: Json)
      modifies this
      ensures response == old(response).Write(WriteJson(code, body))
    {
      response := response.Write(WriteJson(code, body));
    }

    method CallNext()
      modifies this
      ensures response == old(response).Write(Next)
    {
      response := response.Write(Next);
    }

    method Error(f: Failure)
      modifies this
      ensures response == old(response).Record(f)
    {
      response := response.Record(f);
    }

    method AbortWithError(code: int, f: Failure)
      modifies this
      ensures response == old(response).AbortWith(code, f)
    {
      response := response.AbortWith(code, f);
    }

    /** The effect of a panic raised by a handler, once the recovery
        middleware has caught it. */
    method Recover()
      modifies this
      ensures response == old(response).Recovered()
    {
      response := response.Recovered();
    }
  }

  /** A client's session: `values` is what `Get`/`Set`/`Clear` see during
      the request, `stored` what the session store holds. */
  class Session {
    var values: map<string, string>
    var stored: map<string, string>

    /** The session as the store hands it to a new request. */
    constructor Load(stored: map<string, string>)
      ensures values == stored && this.stored == stored
    {
      values := stored;
      this.stored := stored;
    }

    function Get(key: string): Option<string>
      reads this
    {
      Lookup(values, key)
    }

    method Set(key: string, value: string)
      modifies this
      ensures values == old(values)[key := value] && stored == old(stored)
    {
      values := values[key := value];
    }

    method Clear()
      modifies this
      ensures values == map[] && stored == old(stored)
    {
      values := map[];
    }

    /** `Save()`: `backend` is the store's answer; on success the store
        holds exactly the current values. */
    method Save(backend: Outcome) returns (ok: bool)
      modifies this
      ensures ok <==> backend == Pass
      ensures values == old(values)
      ensures stored == if ok then values else old(stored)
    {
      ok := backend == Pass;
      if ok {
        stored := values;
      }
    }
  }
}
