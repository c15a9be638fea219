/** What the handlers of the `gin-oidc` package guarantee, one handler
    call at a time, stated about the step functions the handler methods
    are proved to implement. */
module GinOidcFacts {
  import opened Web
  import Paths
  import opened GinOidc

  // Redirect-target resolution

  /** When the referer parses, the host is never consulted, and the target
      is the referer itself unless it points at the login endpoint. */
  lemma ResolvePrefersReferer(referer: string, host: string, otherHost: string, parse: Parser)
    requires parse(referer).Some?
    ensures Resolve(referer, host, parse) == Resolve(referer, otherHost, parse)
    ensures Paths.Base(parse(referer).value.path) != "login" ==> Resolve(referer, host, parse) == parse(referer).value
  {
  }

  /** When the referer does not parse the host is used, and "/" only when
      the host does not parse either. */
  lemma ResolveFallsBack(referer: string, host: string, parse: Parser)
    requires parse(referer).None?
    ensures parse(host).Some? && Paths.Base(parse(host).value.path) != "login" ==>
              Resolve(referer, host, parse) == parse(host).value
    ensures parse(host).None? ==> Resolve(referer, host, parse) == RootUrl
  {
  }

  /** A request without a `Referer` header is sent back to the empty URL:
      the empty referer parses, so the host is never consulted. */
  lemma ResolveWithoutReferer(host: string, parse: Parser)
    ensures Resolve("", host, parse) == EmptyUrl
    ensures Resolve("", host, parse).text == ""
  {
  }

  /** A referer whose path ends in a `login` element, with or without
      trailing slashes, sends the browser to "/" itself: its scheme and host
      are dropped, whatever they are. */
  lemma ResolveCollapsesLogin(referer: string, host: string, parse: Parser, dir: string, k: nat)
    requires parse(referer).Some? && parse(referer).value.path == dir + "/login" + Paths.Slashes(k)
    ensures Resolve(referer, host, parse) == RootUrl
    ensures Resolve(referer, host, parse).text == "/"
  {
    assert dir + "/login" == dir + "/" + "login";
    Paths.BaseOfJoin(dir, "login", k);
  }

  /** The same for a relative referer path `login`, with or without
      trailing slashes. */
  lemma ResolveCollapsesRelativeLogin(referer: string, host: string, parse: Parser, k: nat)
    requires parse(referer).Some? && parse(referer).value.path == "login" + Paths.Slashes(k)
    ensures Resolve(referer, host, parse) == RootUrl
  {
    Paths.BaseOfTrailing("login", k);
  }

  // LoginHandler

  /** An authenticated session is sent to the target at once: no nonce,
      no session change, no contact with the provider. */
  lemma LoginWhenAuthenticated(w: World, config: Configuration, endpoints: Endpoints,
                               referer: string, host: string, env: Oracle)
    requires Authenticated(w.values)
    ensures var r := LoginStep(w, config, endpoints, referer, host, env);
      && r.values == w.values && r.stored == w.stored && r.calls == w.calls
      && r.response == w.response.Write(Redirect(303, Address(Resolve(referer, host, env.parse).text)))
  {
  }

  /** An anonymous session records the target and a fresh nonce, is saved,
      and is always sent to the authorization endpoint with that nonce; a
      failed save adds a 500 error before the redirect. */
  lemma LoginStartsFlow(w: World, config: Configuration, endpoints: Endpoints,
                        referer: string, host: string, env: Oracle)
    requires !Authenticated(w.values)
    ensures var r := LoginStep(w, config, endpoints, referer, host, env);
      && r.values == w.values["redirect" := Resolve(referer, host, env.parse).text]["state" := env.nonce]
      && r.stored == (if env.save == Pass then r.values else w.stored)
      && r.calls == w.calls
      && r.response.actions == w.response.actions
           + (if env.save == Pass then [] else [WriteStatus(500)])
           + [Redirect(307, AuthorizationRequest(endpoints.authUrl, config.clientId, config.redirectUrl, config.scopes, env.nonce))]
      && r.response.errors == w.response.errors + (if env.save == Pass then [] else [LoginSessionError])
      && r.response.aborted == (w.response.aborted || env.save == Fail)
  {
  }

  /** After a login that was saved, the stored session is pending: it
      holds the nonce and is not authenticated. */
  lemma LoginLeavesPending(w: World, config: Configuration, endpoints: Endpoints,
                           referer: string, host: string, env: Oracle)
    requires !Authenticated(w.values) && env.save == Pass
    ensures var r := LoginStep(w, config, endpoints, referer, host, env);
      "state" in r.stored && r.stored["state"] == env.nonce && !Authenticated(r.stored)
  {
  }

  // RedirectHandler

  /** The query's `state` matches the stored one. */
  predicate StateMatches(w: World, query: map<string, string>) {
    "state" in w.values && QueryValue(query, "state") == w.values["state"]
  }

  /** The provider is contacted exactly when the state matches, and then
      first with the code exchange; otherwise nothing in the session
      changes: no stored state is a panic (500), a different one is a 400. */
  lemma CallbackChecksStateFirst(w: World, config: Configuration, query: map<string, string>, env: Oracle)
    ensures var r := CallbackStep(w, config, query, env);
      && (r.calls != w.calls <==> StateMatches(w, query))
      && (StateMatches(w, query) ==>
            |r.calls| > |w.calls| && r.calls[..|w.calls| + 1] == w.calls + [Exchange(QueryValue(query, "code"))])
      && ("state" !in w.values ==> r == w.(response := w.response.Recovered()))
      && ("state" in w.values && !StateMatches(w, query) ==>
            r == w.(response := w.response.AbortWith(400, InvalidState)))
  {
    var r := CallbackStep(w, config, query, env);
    if StateMatches(w, query) {
      assert r.calls[..|w.calls| + 1] == w.calls + [Exchange(QueryValue(query, "code"))];
    }
  }

  /** A failed exchange (401), a missing ID token (500) or a failed
      verification (401) aborts before the session is saved. */
  lemma CallbackFailuresPersistNothing(w: World, config: Configuration, query: map<string, string>, env: Oracle)
    requires StateMatches(w, query)
    requires env.exchange.Err? || env.exchange.value.idToken.None? || env.verify == Fail
    ensures var r := CallbackStep(w, config, query, env);
      && r.stored == w.stored
      && (env.exchange.Err? ==> r.response == w.response.AbortWith(401, TokenExchangeError))
      && (env.exchange.Ok? && env.exchange.value.idToken.None? ==>
            r.response == w.response.AbortWith(500, IdTokenNotFound))
      && (env.exchange.Ok? && env.exchange.value.idToken.Some? && env.verify == Fail ==>
            r.response == w.response.AbortWith(401, IdTokenVerifyError))
  {
  }

  /** A verified callback stores the three tokens, and the subject when
      user info answers; a user-info failure is recorded as a 500 error and
      the session is saved all the same; the nonce stays in place; the
      browser returns to the stored target only when the save succeeded. */
  lemma CallbackSuccess(w: World, config: Configuration, query: map<string, string>, env: Oracle,
                        token: Token, jwt: string)
    requires StateMatches(w, query)
    requires env.exchange == Ok(token) && token.idToken == Some(jwt) && env.verify == Pass
    ensures var r := CallbackStep(w, config, query, env);
      var tokens := w.values["access_token" := token.accessToken]["refresh_token" := token.refreshToken]["id_token" := jwt];
      && r.values == (if env.userInfo.Ok? then tokens["user" := env.userInfo.value] else tokens)
      && Authenticated(r.values)
      && r.values["state"] == w.values["state"]
      && r.stored == (if env.save == Pass then r.values else w.stored)
      && r.calls == w.calls + [Exchange(QueryValue(query, "code")), Verify(jwt, config.clientId), UserInfo(token.accessToken)]
      && r.response.errors == w.response.errors
           + (if env.userInfo.Ok? then [] else [UserInfoError])
           + (if env.save == Pass then [] else [SessionStoreError])
      && (env.save == Pass && "redirect" in w.values ==>
            && r.response.actions == w.response.actions + (if env.userInfo.Ok? then [] else [WriteStatus(500)])
                 + [Redirect(303, Address(w.values["redirect"]))]
            && r.response.aborted == (w.response.aborted || env.userInfo.Err?))
      && (env.save == Pass && "redirect" !in w.values ==> r.response.panicked)
      && (env.save == Fail ==>
            r.response.actions == w.response.actions + (if env.userInfo.Ok? then [] else [WriteStatus(500)]) + [WriteStatus(500)])
  {
  }

  /** The stored session changes only through a callback whose state
      matched, whose code was exchanged, whose ID token was present and
      verified, and whose save succeeded; it then holds those tokens. */
  lemma CallbackPersistsOnlyVerifiedTokens(w: World, config: Configuration, query: map<string, string>, env: Oracle)
    ensures var r := CallbackStep(w, config, query, env);
      r.stored != w.stored ==>
        && StateMatches(w, query)
        && env.exchange.Ok? && env.exchange.value.idToken.Some?
        && env.verify == Pass && env.save == Pass
        && r.stored["access_token"] == env.exchange.value.accessToken
        && r.stored["refresh_token"] == env.exchange.value.refreshToken
        && r.stored["id_token"] == env.exchange.value.idToken.value
  {
  }

  // LogoutHandler

  /** Logging out an anonymous session answers 200 and changes nothing else. */
  lemma LogoutWhenAnonymous(w: World, endpoints: Endpoints, env: Oracle)
    requires !Authenticated(w.values)
    ensures LogoutStep(w, endpoints, env) == w.(response := w.response.Write(WriteStatus(200)))
  {
  }

  /** Logging out an authenticated session revokes the access token and
      then the refresh token when there is one, records each failed
      revocation without aborting, clears every key whatever the
      revocations answered, and redirects to the end-session endpoint; the
      store is emptied when the (unchecked) save succeeds. */
  lemma LogoutClearsEverything(w: World, endpoints: Endpoints, env: Oracle)
    requires Authenticated(w.values)
    ensures var r := LogoutStep(w, endpoints, env);
      && r.values == map[]
      && r.stored == (if env.save == Pass then map[] else w.stored)
      && r.calls == w.calls + [Revoke(w.values["access_token"], "access_token")]
           + (if "refresh_token" in w.values then [Revoke(w.values["refresh_token"], "refresh_token")] else [])
      && r.response.errors == w.response.errors
           + (if env.revokeAccess == Fail then [RevokeAccessTokenError] else [])
           + (if "refresh_token" in w.values && env.revokeRefresh == Fail then [RevokeRefreshTokenError] else [])
      && r.response.actions == w.response.actions + [Redirect(307, Address(endpoints.endSessionUrl))]
      && r.response.aborted == w.response.aborted
  {
  }
}
