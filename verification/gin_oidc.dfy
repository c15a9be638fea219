/** The per-session OpenID Connect state machine of the `gin-oidc` package:
    begin login (anonymous -> pending), handle the provider's callback
    (pending -> authenticated), log out (authenticated -> cleared), and the
    authentication predicate.  This is the Authorization Code Grant of
    section 4.1 of RFC 6749 with the `state` defence of section 10.12.

    Every remote or library call is an oracle: its answer is an input
    (`Oracle`), and calls to the identity provider are logged so that the
    order in which the handlers contact it can be stated. */
module GinOidc {
  import opened Web
  import Paths

  datatype Configuration = Configuration(
    provider: string, clientId: string, clientSecret: string,
    redirectUrl: string, scopes: seq<string>)

  /** The provider endpoints that discovery yields. */
  datatype Endpoints = Endpoints(
    authUrl: string, tokenUrl: string, userInfoUrl: string,
    revokeUrl: string, endSessionUrl: string)

  /** A parsed URL: the parts the login handler inspects, and `text`, the
      string that `String()` renders the parsed URL back to. */
  datatype Url = Url(scheme: string, host: string, path: string, text: string)

  /** What `url.Parse("/")` yields. */
  const RootUrl := Url("", "", "/", "/")

  /** What `url.Parse("")` yields: an empty URL, and no error. */
  const EmptyUrl := Url("", "", "", "")

  /** `url.Parse`, a partial function: `None` is a parse error.  The empty
      string, which is what `Referer()` returns when the request has no
      `Referer` header, parses to the empty URL, and "/" to `RootUrl`. */
  type Parser = p: string -> Option<Url> | p("") == Some(EmptyUrl) && p("/") == Some(RootUrl)
    witness (t: string) => if t == "/" then Some(RootUrl) else Some(EmptyUrl)

  /** What the token endpoint returns: `idToken` is the `id_token` extra
      field when it is present and a string. */
  datatype Token = Token(accessToken: string, refreshToken: string, idToken: Option<string>)

  /** A call made to the identity provider. */
  datatype Call =
    | Exchange(code: string)
    | Verify(idToken: string, clientId: string)
    | UserInfo(accessToken: string)
    | Revoke(token: string, hint: string)

  /** The answers of the outside world during one request: the URL parser,
      the nonce `generateState` returns, the provider's replies and the
      session store's answer to `Save`. */
  datatype Oracle = Oracle(
    parse: Parser, nonce: string,
    exchange: Remote<Token>, verify: Outcome, userInfo: Remote<string>,
    revokeAccess: Outcome, revokeRefresh: Outcome,
    save: Outcome)

  /** Everything a handler can change: the session's current and stored
      values, the response, and the log of calls to the provider. */
  datatype World = World(
    values: map<string, string>, stored: map<string, string>,
    response: Response, calls: seq<Call>)

  /** A session is authenticated when it holds an access token, whatever
      its value. */
  predicate Authenticated(values: map<string, string>) {
    "access_token" in values
  }

  /** The authorization URL for a login started with nonce `state`. */
  function AuthCodeUrl(config: Configuration, endpoints: Endpoints, state: string): Location {
    AuthorizationRequest(endpoints.authUrl, config.clientId, config.redirectUrl, config.scopes, state)
  }

  /** The referer if it parses, else the host if it parses, else "/". */
  function Candidate(referer: string, host: string, parse: Parser): Url {
    match parse(referer)
    case Some(u) => u
    case None =>
      match parse(host)
      case Some(u) => u
      case None => RootUrl
  }

  /** Where the browser returns after login: the candidate, unless its
      path's last element is "login", in which case "/" on its own. */
  function Resolve(referer: string, host: string, parse: Parser): (u: Url)
    ensures Paths.Base(u.path) != "login"
    ensures u == RootUrl || u == Candidate(referer, host, parse)
  {
    var c := Candidate(referer, host, parse);
    if Paths.Base(c.path) == "login" then RootUrl else c
  }

  /** `LoginHandler` as a step on the world. */
  function LoginStep(w: World, config: Configuration, endpoints: Endpoints,
                     referer: string, host: string, env: Oracle): World
  {
    var target := Resolve(referer, host, env.parse);
    if Authenticated(w.values) then
      w.(response := w.response.Write(Redirect(303, Address(target.text))))
    else
      var values := w.values["redirect" := target.text]["state" := env.nonce];
      var response := if env.save == Pass then w.response else w.response.AbortWith(500, LoginSessionError);
      World(values, if env.save == Pass then values else w.stored,
            response.Write(Redirect(307, AuthCodeUrl(config, endpoints, env.nonce))), w.calls)
  }

  /** `RedirectHandler` as a step on the world. */
  function CallbackStep(w: World, config: Configuration, query: map<string, string>, env: Oracle): World
  {
    if "state" !in w.values then
      w.(response := w.response.Recovered())
    else if QueryValue(query, "state") != w.values["state"] then
      w.(response := w.response.AbortWith(400, InvalidState))
    else
      var calls := w.calls + [Exchange(QueryValue(query, "code"))];
      match env.exchange
      case Err => w.(response := w.response.AbortWith(401, TokenExchangeError), calls := calls)
      case Ok(token) =>
        var values := w.values["access_token" := token.accessToken]["refresh_token" := token.refreshToken];
        match token.idToken
        case None => World(values, w.stored, w.response.AbortWith(500, IdTokenNotFound), calls)
        case Some(jwt) =>
          var calls := calls + [Verify(jwt, config.clientId)];
          if env.verify == Fail then
            World(values, w.stored, w.response.AbortWith(401, IdTokenVerifyError), calls)
          else
            var calls := calls + [UserInfo(token.accessToken)];
            var values := values["id_token" := jwt];
            var values := if env.userInfo.Ok? then values["user" := env.userInfo.value] else values;
            var response := if env.userInfo.Ok? then w.response else w.response.AbortWith(500, UserInfoError);
            if env.save == Fail then
              World(values, w.stored, response.AbortWith(500, SessionStoreError), calls)
            else if "redirect" !in values then
              World(values, values, response.Recovered(), calls)
            else
              World(values, values, response.Write(Redirect(303, Address(values["redirect"]))), calls)
  }

  /** Revocation of the token stored under `key`, if there is one; a
      failure is recorded and nothing else. */
  function RevokeIfPresent(w: World, key: string, answer: Outcome, failure: Failure): World {
    if key in w.values then
      w.(calls := w.calls + [Revoke(w.values[key], key)],
         response := if answer == Fail then w.response.Record(failure) else w.response)
    else w
  }

  /** `LogoutHandler` as a step on the world. */
  function LogoutStep(w: World, endpoints: Endpoints, env: Oracle): World {
    if !Authenticated(w.values) then
      w.(response := w.response.Write(WriteStatus(200)))
    else
      var revoked := RevokeIfPresent(w, "access_token", env.revokeAccess, RevokeAccessTokenError);
      var revoked := RevokeIfPresent(revoked, "refresh_token", env.revokeRefresh, RevokeRefreshTokenError);
      World(map[], if env.save == Pass then map[] else w.stored,
            revoked.response.Write(Redirect(307, Address(endpoints.endSessionUrl))), revoked.calls)
  }

  /** The redirect-target resolution at the head of `LoginHandler`, with
      its reassignments; it reads and changes nothing. */
  method ResolveRedirect(referer: string, host: string, parse: Parser) returns (target: Url)
    ensures target == Resolve(referer, host, parse)
    ensures Paths.Base(target.path) != "login"
  {
    var parsed := parse(referer);
    if parsed.None? {
      parsed := parse(host);
      if parsed.None? {
        parsed := Some(RootUrl);
      }
    }
    target := parsed.value;
    if Paths.Base(target.path) == "login" {
      target := RootUrl;
      // Tests the URL just parsed from "/", whose scheme and host are empty.
      if target.host != "" && target.scheme != "" {
        match parse(target.scheme + "://" + target.host)
        case Some(u) => target := u;
        case None =>
      }
    }
  }

  /** The remote identity provider as the handlers see it: the calls made
      to it, in order.  Each method returns the oracle's answer. */
  class IdentityProvider {
    var calls: seq<Call>

    constructor ()
      ensures calls == []
    {
      calls := [];
    }

    method Exchange(code: string, reply: Remote<Token>) returns (r: Remote<Token>)
      modifies this
      ensures r == reply && calls == old(calls) + [Call.Exchange(code)]
    {
      calls := calls + [Call.Exchange(code)];
      r := reply;
    }

    method Verify(idToken: string, clientId: string, reply: Outcome) returns (r: Outcome)
      modifies this
      ensures r == reply && calls == old(calls) + [Call.Verify(idToken, clientId)]
    {
      calls := calls + [Call.Verify(idToken, clientId)];
      r := reply;
    }

    method UserInfo(accessToken: string, reply: Remote<string>) returns (r: Remote<string>)
      modifies this
      ensures r == reply && calls == old(calls) + [Call.UserInfo(accessToken)]
    {
      calls := calls + [Call.UserInfo(accessToken)];
      r := reply;
    }

    /** `revokeToken(token, hint)`: token and token_type_hint of section 2.1
        of RFC 7009. */
    method Revoke(token: string, hint: string, reply: Outcome) returns (r: Outcome)
      modifies this
      ensures r == reply && calls == old(calls) + [Call.Revoke(token, hint)]
    {
      calls := calls + [Call.Revoke(token, hint)];
      r := reply;
    }
  }

  class Authenticator {
    const config: Configuration
    const endpoints: Endpoints
    const provider: IdentityProvider

    constructor (config: Configuration, endpoints: Endpoints)
      ensures this.config == config && this.endpoints == endpoints
      ensures fresh(provider) && provider.calls == []
    {
      this.config := config;
      this.endpoints := endpoints;
      provider := new IdentityProvider();
    }

    /** `New`: discovery of the provider, then the authenticator; a
        discovery failure gives no authenticator and a provider error. */
    static method New(config: Configuration, discovery: Remote<Endpoints>)
      returns (auth: Authenticator?, err: Option<Failure>)
      ensures discovery.Err? ==> auth == null && err == Some(ProviderError)
      ensures discovery.Ok? ==> err == None && auth != null && fresh(auth) && fresh(auth.provider)
      ensures discovery.Ok? ==> auth.config == config && auth.endpoints == discovery.value && auth.provider.calls == []
    {
      if discovery.Err? {
        return null, Some(ProviderError);
      }
      auth := new Authenticator(config, discovery.value);
      err := None;
    }

    /** The part of the world a handler may change. */
    function Observe(ctx: Context, session: Session): World
      reads ctx, session, provider
    {
      World(session.values, session.stored, ctx.response, provider.calls)
    }

    /** `IsAuthenticated`: a read of the session, true exactly when it
        holds an `access_token` entry, even an empty one. */
    function IsAuthenticated(session: Session): (r: bool)
      reads session
      ensures r <==> Authenticated(session.values)
      ensures "access_token" in session.values && session.values["access_token"] == "" ==> r
    {
      session.Get("access_token") != None
    }

    method LoginHandler(ctx: Context, session: Session, env: Oracle)
      modifies ctx, session
      ensures Observe(ctx, session) == LoginStep(old(Observe(ctx, session)), config, endpoints, ctx.referer, ctx.host, env)
    {
      var target := ResolveRedirect(ctx.referer, ctx.host, env.parse);
      if IsAuthenticated(session) {
        ctx.Redirect(303, Address(target.text));
        return;
      }
      session.Set("redirect", target.text);
      var state := env.nonce;
      session.Set("state", state);
      var saved := session.Save(env.save);
      if !saved {
        ctx.AbortWithError(500, LoginSessionError);
      }
      ctx.Redirect(307, AuthCodeUrl(config, endpoints, state));
    }

    method LogoutHandler(ctx: Context, session: Session, env: Oracle)
      modifies ctx, session, provider
      ensures Observe(ctx, session) == LogoutStep(old(Observe(ctx, session)), endpoints, env)
    {
      if !IsAuthenticated(session) {
        ctx.Status(200);
        return;
      }
      var accessToken := session.Get("access_token");
      if accessToken.Some? {
        var revoked := provider.Revoke(accessToken.value, "access_token", env.revokeAccess);
        if revoked == Fail {
          ctx.Error(RevokeAccessTokenError);
        }
      }
      var refreshToken := session.Get("refresh_token");
      if refreshToken.Some? {
        var revoked := provider.Revoke(refreshToken.value, "refresh_token", env.revokeRefresh);
        if revoked == Fail {
          ctx.Error(RevokeRefreshTokenError);
        }
      }
      session.Clear();
      var ignored := session.Save(env.save);
      ctx.Redirect(307, Address(endpoints.endSessionUrl));
    }

    method RedirectHandler(ctx: Context, session: Session, env: Oracle)
      modifies ctx, session, provider
      ensures Observe(ctx, session) == CallbackStep(old(Observe(ctx, session)), config, ctx.query, env)
    {
      var expected := session.Get("state");
      if expected.None? {
        // The type assertion on a missing value panics.
        ctx.Recover();
        return;
      }
      if ctx.Query("state") != expected.value {
        ctx.AbortWithError(400, InvalidState);
        return;
      }
      var exchanged := provider.Exchange(ctx.Query("code"), env.exchange);
      if exchanged.Err? {
        ctx.AbortWithError(401, TokenExchangeError);
        return;
      }
      var token := exchanged.value;
      session.Set("access_token", token.accessToken);
      session.Set("refresh_token", token.refreshToken);
      match token.idToken {
        case None =>
          ctx.AbortWithError(500, IdTokenNotFound);
          return;
        case Some(jwt) =>
          var verified := provider.Verify(jwt, config.clientId, env.verify);
          if verified == Fail {
            ctx.AbortWithError(401, IdTokenVerifyError);
            return;
          }
          session.Set("id_token", jwt);
      }
      var info := provider.UserInfo(token.accessToken, env.userInfo);
      if info.Err? {
        ctx.AbortWithError(500, UserInfoError);
      } else {
        session.Set("user", info.value);
      }
      var saved := session.Save(env.save);
      if !saved {
        ctx.AbortWithError(500, SessionStoreError);
        return;
      }
      var redirect := session.Get("redirect");
      if redirect.None? {
        ctx.Recover();
        return;
      }
      ctx.Redirect(303, Address(redirect.value));
    }
  }
}
