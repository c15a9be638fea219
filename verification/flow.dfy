/** The session across requests: each request starts from what the session
    store holds, is routed to one handler, and leaves behind what that
    handler saved.  The lemmas here relate several requests. */
module Flow {
  import opened Web
  import Paths
  import opened GinOidc
  import Handler
  import Middleware

  /** The routes the authenticator serves; the user routes sit behind the
      `CheckOIDC` gate. */
  datatype Route = LoginRoute | LogoutRoute | CheckRoute | UserDataRoute | TokensRoute

  datatype Request = Request(route: Route, query: map<string, string>, referer: string, host: string, env: Oracle)

  /** The world at the start of a request: the session as stored, an
      untouched response, no provider calls yet. */
  function Begin(stored: map<string, string>): World {
    World(stored, stored, Untouched, [])
  }

  /** One request, served by the handler its route selects; the user
      routes pass through the `CheckOIDC` gate first.  Only the `/login` and
      `/logout` routes change the session or contact the provider, and an
      anonymous request to a user route gets the gate's redirect followed by
      the handler's pass-on. */
  function Serve(config: Configuration, endpoints: Endpoints, w: World, req: Request): (r: World)
    ensures r.values != w.values || r.stored != w.stored || r.calls != w.calls ==>
              req.route == LoginRoute || req.route == LogoutRoute
    ensures (req.route == UserDataRoute || req.route == TokensRoute) && !Authenticated(w.values) ==>
              r.response == w.response.Write(Redirect(303, Address("/login"))).Write(Next)
    ensures (req.route == UserDataRoute || req.route == TokensRoute) && Authenticated(w.values) ==>
              |r.response.actions| == |w.response.actions| + 1
    ensures Authenticated(w.values) ==>
              && (req.route == TokensRoute ==> r.response == Handler.TokensStep(w.values, w.response))
              && (req.route == UserDataRoute ==> r.response == Handler.UserDataStep(w.values, w.response))
  {
    match req.route
    case LoginRoute =>
      if "code" in req.query then CallbackStep(w, config, req.query, req.env)
      else LoginStep(w, config, endpoints, req.referer, req.host, req.env)
    case LogoutRoute => LogoutStep(w, endpoints, req.env)
    case CheckRoute => w.(response := Handler.CheckStep(w.values, w.response))
    case UserDataRoute => w.(response := Handler.UserDataStep(w.values, Middleware.GateStep(w.values, w.response)))
    case TokensRoute => w.(response := Handler.TokensStep(w.values, Middleware.GateStep(w.values, w.response)))
  }

  /** The routing table: `/login` is the callback when a `code` parameter
      is present and the login otherwise, `/logout` and `/check` go to
      their handlers. */
  lemma RoutesDispatch(config: Configuration, endpoints: Endpoints, w: World, req: Request)
    ensures var r := Serve(config, endpoints, w, req);
      && (req.route == CheckRoute ==> r == w.(response := Handler.CheckStep(w.values, w.response)))
      && (req.route == LogoutRoute ==> r == LogoutStep(w, endpoints, req.env))
      && (req.route == LoginRoute && "code" in req.query ==> r == CallbackStep(w, config, req.query, req.env))
      && (req.route == LoginRoute && "code" !in req.query ==>
            r == LoginStep(w, config, endpoints, req.referer, req.host, req.env))
  {
  }

  /** What the store holds after serving `reqs` in order. */
  function Run(config: Configuration, endpoints: Endpoints, stored: map<string, string>, reqs: seq<Request>): map<string, string>
    decreases |reqs|
  {
    if reqs == [] then stored
    else Run(config, endpoints, Serve(config, endpoints, Begin(stored), reqs[0]).stored, reqs[1..])
  }

  /** An authenticated stored session also holds its refresh and ID
      tokens, and a pending one holds its return target. */
  predicate Consistent(s: map<string, string>) {
    && ("access_token" in s ==> "refresh_token" in s && "id_token" in s)
    && ("state" in s ==> "redirect" in s)
  }

  /** Serving a request never makes the stored session inconsistent. */
  lemma ServeKeepsConsistent(config: Configuration, endpoints: Endpoints, s: map<string, string>, req: Request)
    requires Consistent(s)
    ensures Consistent(Serve(config, endpoints, Begin(s), req).stored)
  {
  }

  /** No sequence of requests makes a consistent stored session
      inconsistent; in particular tokens are never persisted without a
      verified ID token beside them. */
  lemma {:induction false} RunKeepsConsistent(config: Configuration, endpoints: Endpoints, s: map<string, string>, reqs: seq<Request>)
    requires Consistent(s)
    ensures Consistent(Run(config, endpoints, s, reqs))
    decreases |reqs|
  {
    if reqs != [] {
      ServeKeepsConsistent(config, endpoints, s, reqs[0]);
      RunKeepsConsistent(config, endpoints, Serve(config, endpoints, Begin(s), reqs[0]).stored, reqs[1..]);
    }
  }

  /** In a consistent session the callback panics only when no login is
      pending: the missing-`redirect` panic after a successful save cannot
      happen. */
  lemma CallbackPanicsOnlyWithoutState(config: Configuration, s: map<string, string>, query: map<string, string>, env: Oracle)
    requires Consistent(s)
    ensures CallbackStep(Begin(s), config, query, env).response.panicked ==> "state" !in s
  {
  }

  /** The route is a callback. */
  predicate IsCallback(req: Request) {
    req.route == LoginRoute && "code" in req.query
  }

  /** Only a callback can authenticate a stored session. */
  lemma OnlyCallbackAuthenticates(config: Configuration, endpoints: Endpoints, s: map<string, string>, req: Request)
    requires !Authenticated(s) && !IsCallback(req)
    ensures !Authenticated(Serve(config, endpoints, Begin(s), req).stored)
  {
  }

  /** Without a callback among them, no sequence of requests authenticates
      an anonymous stored session. */
  lemma {:induction false} RunWithoutCallbackStaysAnonymous(config: Configuration, endpoints: Endpoints,
                                                             s: map<string, string>, reqs: seq<Request>)
    requires !Authenticated(s)
    requires forall i :: 0 <= i < |reqs| ==> !IsCallback(reqs[i])
    ensures !Authenticated(Run(config, endpoints, s, reqs))
    decreases |reqs|
  {
    if reqs != [] {
      OnlyCallbackAuthenticates(config, endpoints, s, reqs[0]);
      RunWithoutCallbackStaysAnonymous(config, endpoints, Serve(config, endpoints, Begin(s), reqs[0]).stored, reqs[1..]);
    }
  }

  /** Only a logout whose save succeeds ends a stored authentication; a
      logout whose save fails leaves the store as it was, so the next
      request is still authenticated. */
  lemma OnlyLogoutEndsAuthentication(config: Configuration, endpoints: Endpoints, s: map<string, string>, req: Request)
    requires Authenticated(s)
    ensures !Authenticated(Serve(config, endpoints, Begin(s), req).stored) <==>
              req.route == LogoutRoute && req.env.save == Pass
    ensures req.route == LogoutRoute && req.env.save == Fail ==> Serve(config, endpoints, Begin(s), req).stored == s
  {
  }

  /** The read-only routes leave the session, stored and current, alone. */
  lemma ReadRoutesOnlyRead(config: Configuration, endpoints: Endpoints, w: World, req: Request)
    requires req.route in {CheckRoute, UserDataRoute, TokensRoute}
    ensures var r := Serve(config, endpoints, w, req);
      r.values == w.values && r.stored == w.stored && r.calls == w.calls
  {
  }

  /** An anonymous request to a user route gets the gate's redirect to the
      login page and nothing more. */
  lemma UserRoutesRedirectAnonymous(config: Configuration, endpoints: Endpoints, s: map<string, string>, req: Request)
    requires !Authenticated(s) && req.route in {UserDataRoute, TokensRoute}
    ensures Serve(config, endpoints, Begin(s), req).response.actions == [Redirect(303, Address("/login")), Next]
  {
  }

  /** Two logouts in a row, the first saved: the store ends empty (or
      as it was, when it was not authenticated), and the second answers 200
      without touching the session or the provider. */
  lemma LogoutTwice(config: Configuration, endpoints: Endpoints, s: map<string, string>, first: Request, second: Request)
    requires first.route == LogoutRoute && second.route == LogoutRoute && first.env.save == Pass
    ensures Run(config, endpoints, s, [first, second]) == if Authenticated(s) then map[] else s
    ensures var after := Serve(config, endpoints, Begin(s), first).stored;
      Serve(config, endpoints, Begin(after), second) == Begin(after).(response := Untouched.Write(WriteStatus(200)))
  {
    var after := Serve(config, endpoints, Begin(s), first).stored;
    assert [first, second][1..] == [second];
    assert Run(config, endpoints, s, [first, second]) == Run(config, endpoints, after, [second]);
    assert Serve(config, endpoints, Begin(after), second).stored == after;
    assert [second][1..] == [];
    assert Run(config, endpoints, after, [second]) == Run(config, endpoints, after, []);
  }

  /** The nonce is not consumed: after a saved, successful callback a
      second callback carrying the same `state` passes the check again and
      reaches the code exchange. */
  lemma StateReplayable(config: Configuration, s: map<string, string>, query: map<string, string>, env: Oracle,
                        again: map<string, string>, env2: Oracle)
    requires "state" in s && QueryValue(query, "state") == s["state"]
    requires env.exchange.Ok? && env.exchange.value.idToken.Some? && env.verify == Pass && env.save == Pass
    requires QueryValue(again, "state") == s["state"]
    ensures var after := CallbackStep(Begin(s), config, query, env).stored;
      && after["state"] == s["state"]
      && CallbackStep(Begin(after), config, again, env2).calls[0] == Exchange(QueryValue(again, "code"))
  {
  }

  /** `url.Parse` in the end-to-end scenario: only `/dashboard`, `/` and
      the empty string parse. */
  function DashboardParser(t: string): Option<Url> {
    if t == "/dashboard" then Some(Url("", "", "/dashboard", "/dashboard"))
    else if t == "/" then Some(RootUrl)
    else if t == "" then Some(EmptyUrl)
    else None
  }

  /** The oracle of the end-to-end scenario: every remote call succeeds. */
  function ScenarioOracle(nonce: string): Oracle {
    Oracle(DashboardParser, nonce, Ok(Token("T1", "R1", Some("J1"))), Pass, Ok("u123"), Pass, Pass, Pass)
  }

  /** The pending session the scenario's login leaves behind. */
  function ScenarioPending(nonce: string): map<string, string> {
    map["redirect" := "/dashboard", "state" := nonce]
  }

  /** The scenario's first request: login from `/dashboard`. */
  lemma ScenarioLogin(config: Configuration, endpoints: Endpoints, nonce: string)
    ensures var pending := Serve(config, endpoints, Begin(map[]), Request(LoginRoute, map[], "/dashboard", "", ScenarioOracle(nonce)));
      && pending.stored == ScenarioPending(nonce)
      && pending.response.actions == [Redirect(307, AuthCodeUrl(config, endpoints, nonce))]
  {
    assert "/dashboard" == "" + "/" + "dashboard" + Paths.Slashes(0);
    Paths.BaseOfJoin("", "dashboard", 0);
    assert Candidate("/dashboard", "", DashboardParser) == Url("", "", "/dashboard", "/dashboard");
    assert Resolve("/dashboard", "", DashboardParser).text == "/dashboard";
    var login := Request(LoginRoute, map[], "/dashboard", "", ScenarioOracle(nonce));
    assert Serve(config, endpoints, Begin(map[]), login) ==
           LoginStep(Begin(map[]), config, endpoints, "/dashboard", "", ScenarioOracle(nonce));
  }

  /** The scenario's second request: the callback with the state and code `abc`. */
  lemma ScenarioCallback(config: Configuration, endpoints: Endpoints, nonce: string)
    ensures var done := Serve(config, endpoints, Begin(ScenarioPending(nonce)),
                              Request(LoginRoute, map["state" := nonce, "code" := "abc"], "", "", ScenarioOracle(nonce)));
      && done.stored == ScenarioPending(nonce)["access_token" := "T1"]["refresh_token" := "R1"]["id_token" := "J1"]["user" := "u123"]
      && done.calls == [Exchange("abc"), Verify("J1", config.clientId), UserInfo("T1")]
      && done.response == Untouched.Write(Redirect(303, Address("/dashboard")))
  {
    var query := map["state" := nonce, "code" := "abc"];
    assert QueryValue(query, "state") == nonce && QueryValue(query, "code") == "abc";
  }

  /** The end-to-end scenario: an anonymous session starts a login from
      `/dashboard`, the provider calls back with the matching state and
      code `abc`, the exchange, verification and user info all succeed;
      the session ends authenticated as `u123` and the browser returns to
      `/dashboard`. */
  lemma EndToEnd(config: Configuration, endpoints: Endpoints, nonce: string)
    ensures var end := Run(config, endpoints, map[], [
              Request(LoginRoute, map[], "/dashboard", "", ScenarioOracle(nonce)),
              Request(LoginRoute, map["state" := nonce, "code" := "abc"], "", "", ScenarioOracle(nonce))]);
      && Authenticated(end) && "user" in end && "id_token" in end && "redirect" in end
      && end["user"] == "u123" && end["access_token"] == "T1" && end["id_token"] == "J1"
      && end["redirect"] == "/dashboard"
  {
    var login := Request(LoginRoute, map[], "/dashboard", "", ScenarioOracle(nonce));
    var callback := Request(LoginRoute, map["state" := nonce, "code" := "abc"], "", "", ScenarioOracle(nonce));
    ScenarioLogin(config, endpoints, nonce);
    ScenarioCallback(config, endpoints, nonce);
    RunTwo(config, endpoints, map[], login, callback);
  }

  /** Serving two requests: the second starts from what the first stored. */
  lemma RunTwo(config: Configuration, endpoints: Endpoints, s: map<string, string>, first: Request, second: Request)
    ensures Run(config, endpoints, s, [first, second]) ==
              Serve(config, endpoints, Begin(Serve(config, endpoints, Begin(s), first).stored), second).stored
  {
    var after := Serve(config, endpoints, Begin(s), first).stored;
    assert [first, second][1..] == [second];
    assert [second][1..] == [];
    assert Run(config, endpoints, s, [first, second]) == Run(config, endpoints, after, [second]);
    var done := Serve(config, endpoints, Begin(after), second).stored;
    assert Run(config, endpoints, after, [second]) == Run(config, endpoints, done, []);
  }
}
