/** The HTTP handlers of the service's `/login`, `/logout` and `/check`
    routes and of the gated user-data routes.  They dispatch to the
    authenticator, or read the session and write a response; none of them
    changes the session itself. */
module Handler {
  import opened Web
  import opened GinOidc

  /** `Check` as a step on the response. */
  function CheckStep(values: map<string, string>, resp: Response): Response {
    if !Authenticated(values) then resp.Write(WriteStatus(401))
    else if "user" !in values then resp.Recovered()
    else resp.Write(SetHeader("User", values["user"])).Write(WriteJson(200, map["userId" := Some(values["user"])]))
  }

  /** `GetTokens` as a step on the response. */
  function TokensStep(values: map<string, string>, resp: Response): Response {
    if !Authenticated(values) then resp.Write(Next)
    else resp.Write(WriteJson(200, map[
      "AccessToken" := Lookup(values, "access_token"),
      "RefreshToken" := Lookup(values, "refresh_token"),
      "IDToken" := Lookup(values, "id_token")]))
  }

  /** `GetUserData` as a step on the response. */
  function UserDataStep(values: map<string, string>, resp: Response): Response {
    if !Authenticated(values) then resp.Write(Next)
    else if "user" !in values then resp.Recovered()
    else resp.Write(WriteJson(200, map["User" := Some(values["user"])]))
  }

  /** `/login`: a request carrying a `code` parameter, even an empty one,
      is the provider's callback; any other starts a login. */
  method Login(ctx: Context, auth: Authenticator, session: Session, env: Oracle)
    modifies ctx, session, auth.provider
    ensures auth.Observe(ctx, session) ==
              if "code" in ctx.query then CallbackStep(old(auth.Observe(ctx, session)), auth.config, ctx.query, env)
              else LoginStep(old(auth.Observe(ctx, session)), auth.config, auth.endpoints, ctx.referer, ctx.host, env)
  {
    if "code" in ctx.query {
      auth.RedirectHandler(ctx, session, env);
    } else {
      auth.LoginHandler(ctx, session, env);
    }
  }

  /** `/logout`: always the authenticator's logout, whatever the session. */
  method Logout(ctx: Context, auth: Authenticator, session: Session, env: Oracle)
    modifies ctx, session, auth.provider
    ensures auth.Observe(ctx, session) == LogoutStep(old(auth.Observe(ctx, session)), auth.endpoints, env)
  {
    auth.LogoutHandler(ctx, session, env);
  }

  method Check(ctx: Context, auth: Authenticator, session: Session)
    modifies ctx
    ensures ctx.response == CheckStep(session.values, old(ctx.response))
  {
    if !auth.IsAuthenticated(session) {
      ctx.Status(401);
      return;
    }
    var user := session.Get("user");
    if user.None? {
      ctx.Recover();
      return;
    }
    ctx.Header("User", user.value);
    ctx.JSON(200, map["userId" := Some(user.value)]);
  }

  method GetTokens(ctx: Context, auth: Authenticator, session: Session)
    modifies ctx
    ensures ctx.response == TokensStep(session.values, old(ctx.response))
  {
    if !auth.IsAuthenticated(session) {
      ctx.CallNext();
      return;
    }
    ctx.JSON(200, map[
      "AccessToken" := session.Get("access_token"),
      "RefreshToken" := session.Get("refresh_token"),
      "IDToken" := session.Get("id_token")]);
  }

  method GetUserData(ctx: Context, auth: Authenticator, session: Session)
    modifies ctx
    ensures ctx.response == UserDataStep(session.values, old(ctx.response))
  {
    if !auth.IsAuthenticated(session) {
      ctx.CallNext();
      return;
    }
    var user := session.Get("user");
    if user.None? {
      ctx.Recover();
      return;
    }
    ctx.JSON(200, map["User" := Some(user.value)]);
  }

  /** `Check` answers 401 with nothing else exactly when the session is
      not authenticated; otherwise the `User` header and the `userId` field
      both carry the session's subject, and a session authenticated without
      one (after a user-info failure) panics. */
  lemma CheckReportsUser(values: map<string, string>, resp: Response)
    ensures (CheckStep(values, resp) == resp.Write(WriteStatus(401))) <==> !Authenticated(values)
    ensures Authenticated(values) && "user" in values ==>
              var r := CheckStep(values, resp);
              && r.actions == resp.actions + [SetHeader("User", values["user"]), WriteJson(200, map["userId" := Some(values["user"])])]
              && r.errors == resp.errors && r.aborted == resp.aborted
    ensures Authenticated(values) && "user" !in values ==> CheckStep(values, resp).panicked
  {
    if Authenticated(values) {
      var r := CheckStep(values, resp);
      assert |r.actions| != |resp.actions| + 1 || r.actions[|resp.actions|] != WriteStatus(401);
    }
  }

  /** The gated reads write nothing for an anonymous session and only pass
      on; for an authenticated one they write a single 200 JSON answer with
      the session's entries, null where one is missing, except that user
      data without a `user` entry panics. */
  lemma GatedReadsAnswer(values: map<string, string>, resp: Response)
    ensures !Authenticated(values) ==>
              TokensStep(values, resp) == resp.Write(Next) && UserDataStep(values, resp) == resp.Write(Next)
    ensures Authenticated(values) ==>
              TokensStep(values, resp) == resp.Write(WriteJson(200, map[
                "AccessToken" := Some(values["access_token"]),
                "RefreshToken" := if "refresh_token" in values then Some(values["refresh_token"]) else None,
                "IDToken" := if "id_token" in values then Some(values["id_token"]) else None]))
    ensures Authenticated(values) && "user" in values ==>
              UserDataStep(values, resp) == resp.Write(WriteJson(200, map["User" := Some(values["user"])]))
    ensures Authenticated(values) && "user" !in values ==> UserDataStep(values, resp).panicked
  {
  }
}
