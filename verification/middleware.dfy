/** The authentication middleware: the gate in front of the user routes,
    and the binding of the one authenticator to every request. */
module Middleware {
  import opened Web
  import opened GinOidc

  /** `CheckOIDC` as a step on the response. */
  function GateStep(values: map<string, string>, resp: Response): Response {
    if Authenticated(values) then resp else resp.Write(Redirect(303, Address("/login")))
  }

  /** `CheckOIDC`: an anonymous session is redirected to the login page,
      without aborting the chain; an authenticated one passes untouched. */
  method CheckOIDC(ctx: Context, auth: Authenticator, session: Session)
    modifies ctx
    ensures ctx.response == GateStep(session.values, old(ctx.response))
  {
    if !auth.IsAuthenticated(session) {
      ctx.Redirect(303, Address("/login"));
    }
  }

  /** The gate only ever adds the one redirect: it neither aborts nor
      records an error, and writes nothing for an authenticated session. */
  lemma GateOnlyRedirects(values: map<string, string>, resp: Response)
    ensures GateStep(values, resp).aborted == resp.aborted
    ensures GateStep(values, resp).errors == resp.errors
    ensures GateStep(values, resp).actions ==
              resp.actions + (if Authenticated(values) then [] else [Redirect(303, Address("/login"))])
  {
  }

  /** `OIDC`: one authenticator built at start-up and bound to every
      request.  A discovery failure is logged and leaves no authenticator,
      so binding it to a request dereferences nil, which panics. */
  class OidcMiddleware {
    const authenticator: Authenticator?
    var logged: seq<Failure>

    constructor (config: Configuration, discovery: Remote<Endpoints>)
      ensures discovery.Ok? ==> authenticator != null && fresh(authenticator)
      ensures discovery.Ok? ==> authenticator.config == config && authenticator.endpoints == discovery.value
      ensures discovery.Ok? ==> authenticator.provider.calls == [] && logged == []
      ensures discovery.Err? ==> authenticator == null && logged == [ProviderError]
    {
      var auth, err := Authenticator.New(config, discovery);
      authenticator := auth;
      logged := if err.Some? then [err.value] else [];
    }

    /** The per-request closure: the same authenticator for every request,
        the response untouched unless there is none. */
    method Bind(ctx: Context) returns (bound: Authenticator?)
      modifies ctx
      ensures bound == authenticator
      ensures ctx.response == if authenticator == null then old(ctx.response).Recovered() else old(ctx.response)
    {
      if authenticator == null {
        ctx.Recover();
      }
      bound := authenticator;
    }
  }
}
