/**
 * The OAuth2 client side of docker/hydra/index.js as a state machine over the
 * session: `/start-oauth` opens a flow, `/callback` checks it and exchanges
 * the code. The token endpoint is a parameter: a function from the posted
 * form to the outcome of the back-channel call, so the model records which
 * form, if any, a callback sends.
 */
module ClientFlow {
  import opened JsValues
  import opened Encoding
  import opened Pkce
  import opened Web

  /** The query of the redirect back to the client: `code`, `state`, `error`, `error_description`. */
  datatype CallbackQuery = CallbackQuery(code: Option<string>, state: Option<string>, error: Option<string>, errorDescription: Option<string>)

  /** The outcome of the token request: the token set, or the upstream error detail shown on the 500 page. */
  datatype ExchangeOutcome = Exchanged(tokens: TokenSet) | ExchangeFailed(detail: string)

  /** A handler's response and the session it leaves behind. */
  datatype Step = Step(response: Response, after: SessionState)

  /** A callback's response, the token form it posted (if any) and the session it leaves behind. */
  datatype CallbackStep = CallbackStep(response: Response, exchange: Option<Params>, after: SessionState)

  /**
   * `/start-oauth` (docker/hydra/index.js:171-209): a new flow replaces whatever
   * flow was pending, the rest of the session is kept, and the browser is sent to
   * the authorization endpoint with the new state and the S256 challenge of the
   * new verifier.
   */
  function StartOAuth(cfg: Config, s: SessionState, scope: Option<string>,
                      stateBytes: seq<byte>, verifierBytes: seq<byte>, sha256: string -> Digest): (r: Step)
    requires |stateBytes| == 16 && |verifierBytes| == 32
    ensures r.after.oauth == Some(NewFlow(stateBytes, verifierBytes, sha256).stored)
    ensures r.after.token == s.token && r.after.userTraits == s.userTraits
    ensures r.response.Redirect? && r.response.to.Authorize? && r.response.to.endpoint == AuthorizationEndpoint(cfg)
    ensures Lookup(r.response.to.query, "state") == Some(r.after.oauth.value.state)
    ensures Lookup(r.response.to.query, "code_challenge") == Some(S256(sha256, r.after.oauth.value.verifier))
    ensures Lookup(r.response.to.query, "redirect_uri") == Some(cfg.redirectUri)
    ensures r.response.to.query == AuthorizationQuery(cfg, ScopeOrDefault(scope), r.after.oauth.value.state,
                                                      NewFlow(stateBytes, verifierBytes, sha256).challenge)
    ensures Lookup(r.response.to.query, "scope") == Some(if Truthy(scope) then scope.value else "openid offline")
    ensures Lookup(r.response.to.query, "response_type") == Some("code")
    ensures Lookup(r.response.to.query, "code_challenge_method") == Some("S256")
  {
    var f := NewFlow(stateBytes, verifierBytes, sha256);
    var query := AuthorizationQuery(cfg, ScopeOrDefault(scope), f.stored.state, f.challenge);
    AuthorizationQueryFields(cfg, scope, f.stored.state, f.challenge);
    Step(Redirect(Authorize(AuthorizationEndpoint(cfg), query)), s.(oauth := Some(f.stored)))
  }

  /** The callback carries exactly the state of the pending flow. */
  predicate StateMatches(s: SessionState, q: CallbackQuery) {
    s.oauth.Some? && q.state == Some(s.oauth.value.state)
  }

  /**
   * `/callback` (docker/hydra/index.js:212-290). In order: a non-empty `error`
   * gives the error page; no pending flow gives 400; a state other than the
   * stored one gives 400; only then is the code exchanged. A successful exchange
   * stores the token set, deletes the flow and redirects to `/`; a failed one
   * gives 500 and leaves the session as it was (the flow included).
   */
  function Callback(cfg: Config, s: SessionState, q: CallbackQuery, tokenEndpoint: Params -> ExchangeOutcome): (r: CallbackStep)
    ensures r.exchange.Some? <==> !Truthy(q.error) && StateMatches(s, q)
    ensures r.exchange.Some? ==> r.exchange.value == TokenForm(cfg, q.code, s.oauth.value.verifier)
    ensures r.after.userTraits == s.userTraits
    ensures r.after.token != s.token ==> r.exchange.Some? && r.after.token.Some? && tokenEndpoint(r.exchange.value) == Exchanged(r.after.token.value)
    ensures r.after.oauth != s.oauth <==> r.exchange.Some? && tokenEndpoint(r.exchange.value).Exchanged?
    ensures r.after.oauth != s.oauth ==> r.after.oauth.None?
  {
    if Truthy(q.error) then
      CallbackStep(Send(200, AuthorizationError(q.error.value, OrEmpty(q.errorDescription))), None, s)
    else if s.oauth.None? then
      CallbackStep(Send(400, SessionNotFound), None, s)
    else if q.state != Some(s.oauth.value.state) then
      CallbackStep(Send(400, InvalidState(s.oauth.value.state, Text(q.state))), None, s)
    else
      var form := TokenForm(cfg, q.code, s.oauth.value.verifier);
      match tokenEndpoint(form)
      case Exchanged(tokens) => CallbackStep(Redirect(Home), Some(form), s.(token := Some(tokens), oauth := None))
      case ExchangeFailed(detail) => CallbackStep(Send(500, TokenRetrievalError(detail)), Some(form), s)
  }

  /**
   * The three rejecting branches, in their order, answer without posting to the
   * token endpoint and without touching the session.
   */
  lemma CallbackRejections(cfg: Config, s: SessionState, q: CallbackQuery, tokenEndpoint: Params -> ExchangeOutcome)
    ensures var r := Callback(cfg, s, q, tokenEndpoint);
      && (Truthy(q.error) ==>
            r == CallbackStep(Send(200, AuthorizationError(q.error.value, OrEmpty(q.errorDescription))), None, s))
      && (!Truthy(q.error) && s.oauth.None? ==>
            r == CallbackStep(Send(400, SessionNotFound), None, s))
      && (!Truthy(q.error) && s.oauth.Some? && q.state != Some(s.oauth.value.state) ==>
            r == CallbackStep(Send(400, InvalidState(s.oauth.value.state, Text(q.state))), None, s))
  {
  }

  /**
   * The accepted path posts an authorization_code grant with the client's
   * redirect URI and the stored verifier; success stores exactly the returned
   * token set, consumes the flow and redirects to `/`.
   */
  lemma CallbackExchange(cfg: Config, s: SessionState, q: CallbackQuery, tokenEndpoint: Params -> ExchangeOutcome)
    requires !Truthy(q.error) && StateMatches(s, q)
    ensures var r := Callback(cfg, s, q, tokenEndpoint);
      && r.exchange.Some?
      && Lookup(r.exchange.value, "grant_type") == Some("authorization_code")
      && Lookup(r.exchange.value, "redirect_uri") == Some(cfg.redirectUri)
      && Lookup(r.exchange.value, "code_verifier") == Some(s.oauth.value.verifier)
      && (tokenEndpoint(r.exchange.value).Exchanged? ==>
            && r.after == SessionState(None, Some(tokenEndpoint(r.exchange.value).tokens), s.userTraits)
            && r.response == Redirect(Home))
      && (tokenEndpoint(r.exchange.value).ExchangeFailed? ==>
            && r.after == s
            && r.response == Send(500, TokenRetrievalError(tokenEndpoint(r.exchange.value).detail)))
  {
    TokenFormFields(cfg, q.code, s.oauth.value.verifier);
  }

  /** A callback replayed after a successful one finds no pending flow: 400, and no second token request. */
  lemma ReplayRejected(cfg: Config, s: SessionState, q: CallbackQuery,
                       first: Params -> ExchangeOutcome, second: Params -> ExchangeOutcome)
    requires Callback(cfg, s, q, first).exchange.Some?
    requires first(Callback(cfg, s, q, first).exchange.value).Exchanged?
    ensures var r1 := Callback(cfg, s, q, first);
      var r2 := Callback(cfg, r1.after, q, second);
      r2.response == Send(400, SessionNotFound) && r2.exchange.None? && r2.after == r1.after
  {
  }

  /**
   * Starting a flow makes every earlier state stale: a callback carrying any state
   * other than the new one is refused with 400 and sends nothing.
   */
  lemma StaleStateRejected(cfg: Config, s: SessionState, scope: Option<string>,
                           stateBytes: seq<byte>, verifierBytes: seq<byte>, sha256: string -> Digest,
                           q: CallbackQuery, tokenEndpoint: Params -> ExchangeOutcome)
    requires |stateBytes| == 16 && |verifierBytes| == 32
    requires !Truthy(q.error)
    requires q.state != Some(NewFlow(stateBytes, verifierBytes, sha256).stored.state)
    ensures var started := StartOAuth(cfg, s, scope, stateBytes, verifierBytes, sha256).after;
      var r := Callback(cfg, started, q, tokenEndpoint);
      r.exchange.None? && r.response.Send? && r.response.status == 400 && r.after == started
  {
  }

  /**
   * PKCE binding across the round trip: when the callback returns the state that
   * `/start-oauth` sent, the token request carries a verifier whose S256 challenge is
   * the `code_challenge` of the authorization request, and the same `redirect_uri`
   * and `client_id`.
   */
  lemma {:induction false} StartThenCallbackBindsPkce(cfg: Config, s: SessionState, scope: Option<string>,
                                   stateBytes: seq<byte>, verifierBytes: seq<byte>, sha256: string -> Digest,
                                   code: Option<string>, tokenEndpoint: Params -> ExchangeOutcome)
    requires |stateBytes| == 16 && |verifierBytes| == 32
    ensures var start := StartOAuth(cfg, s, scope, stateBytes, verifierBytes, sha256);
      var authQuery := start.response.to.query;
      var q := CallbackQuery(code, Lookup(authQuery, "state"), None, None);
      var r := Callback(cfg, start.after, q, tokenEndpoint);
      && r.exchange.Some?
      && Lookup(r.exchange.value, "code_verifier").Some?
      && Lookup(authQuery, "code_challenge") == Some(S256(sha256, Lookup(r.exchange.value, "code_verifier").value))
      && Lookup(r.exchange.value, "redirect_uri") == Lookup(authQuery, "redirect_uri")
      && Lookup(r.exchange.value, "client_id") == Lookup(authQuery, "client_id")
      && Lookup(r.exchange.value, "code") == Some(Text(code))
  {
    var start := StartOAuth(cfg, s, scope, stateBytes, verifierBytes, sha256);
    var f := NewFlow(stateBytes, verifierBytes, sha256);
    AuthorizationQueryFields(cfg, scope, f.stored.state, f.challenge);
    var q := CallbackQuery(code, Lookup(start.response.to.query, "state"), None, None);
    CallbackExchange(cfg, start.after, q, tokenEndpoint);
    TokenFormFields(cfg, code, f.stored.verifier);
  }

  /**
   * The end-to-end run: start a flow, come back with its state, receive a token set;
   * the session then holds that token set and no flow, and `/` shows it.
   */
  lemma {:induction false} LoginRunShowsToken(cfg: Config, scope: Option<string>,
                            stateBytes: seq<byte>, verifierBytes: seq<byte>, sha256: string -> Digest,
                            code: string, tokens: TokenSet)
    requires |stateBytes| == 16 && |verifierBytes| == 32
    ensures var start := StartOAuth(cfg, Anonymous, scope, stateBytes, verifierBytes, sha256);
      var q := CallbackQuery(Some(code), Some(start.after.oauth.value.state), None, None);
      var r := Callback(cfg, start.after, q, form => Exchanged(tokens));
      && r.response == Redirect(Home)
      && r.after == SessionState(None, Some(tokens), None)
      && HomeView(None, None, r.after.token) == LoggedIn(tokens)
  {
  }
}
