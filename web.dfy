/**
 * The session record of docker/hydra/index.js and the responses its handlers
 * choose, with the two routing rules that only read: the page shown on `/`
 * and the `/login` redirect. HTML is left out; a response names the page or
 * the redirect target and carries its status.
 */
module Web {
  import opened JsValues
  import opened Pkce

  /** The token set returned by the token endpoint, kept as `session.token`. */
  datatype TokenSet = TokenSet(accessToken: string, tokenType: string, expiresIn: int, refreshToken: Option<string>)

  /** Identity traits of the identity provider, kept as `session.userTraits`. */
  datatype Traits = Traits(email: Option<string>, name: Option<string>, roles: Option<seq<string>>)

  /** The session: `oauth` (the pending flow), `token` and `userTraits`, each possibly missing. */
  datatype SessionState = SessionState(oauth: Option<FlowState>, token: Option<TokenSet>, userTraits: Option<Traits>)

  /** A new or destroyed session holds nothing. */
  const Anonymous := SessionState(None, None, None)

  /** Where a redirect sends the browser. */
  datatype Location =
    | Home                                                 // "/"
    | LoginPage(challenge: string, error: Option<string>)  // "/?login_challenge=...[&error=...]"
    | Authorize(endpoint: string, query: Params)           // the authorization endpoint with its query
    | External(url: string)                                // a `redirect_to` handed back by the authorization server

  /** The pages sent instead of a redirect. */
  datatype Page =
    | AuthorizationError(error: string, description: string)
    | SessionNotFound
    | InvalidState(expected: string, received: string)
    | TokenRetrievalError(detail: string)
    | MissingConsentChallenge
    | ConsentError

  datatype Response = Redirect(to: Location) | Send(status: nat, page: Page)

  /** The three views of `/`. */
  datatype View = LoginForm(challenge: string, error: Option<string>) | LoggedIn(token: TokenSet) | Welcome

  /**
   * The page chosen on `/` (docker/hydra/index.js:54-60, 114): the login form when
   * a non-empty login challenge is in the query, else the token view when the
   * session holds a token, else the anonymous welcome page. The login form shows
   * the `error` query field only when it is non-empty.
   */
  function HomeView(loginChallenge: Option<string>, error: Option<string>, token: Option<TokenSet>): (v: View)
    ensures v.LoginForm? <==> Truthy(loginChallenge)
    ensures v.LoginForm? ==> v.challenge == loginChallenge.value && (v.error.Some? <==> Truthy(error))
    ensures v.LoginForm? && v.error.Some? ==> v.error == error
    ensures v.LoggedIn? <==> !Truthy(loginChallenge) && token.Some?
    ensures v.LoggedIn? ==> Some(v.token) == token
    ensures v.Welcome? <==> !Truthy(loginChallenge) && token.None?
  {
    if Truthy(loginChallenge) then LoginForm(loginChallenge.value, if Truthy(error) then error else None)
    else if token.Some? then LoggedIn(token.value)
    else Welcome
  }

  /**
   * `/login` (docker/hydra/index.js:357-367): forwards a non-empty login challenge
   * to the login form on `/`, and sends the browser to `/` otherwise.
   */
  function LoginRedirect(loginChallenge: Option<string>): (r: Response)
    ensures r.Redirect?
    ensures r.to.LoginPage? <==> Truthy(loginChallenge)
    ensures r.to.LoginPage? ==> r.to.challenge == loginChallenge.value && r.to.error.None?
    ensures !r.to.LoginPage? ==> r.to == Home
  {
    if Truthy(loginChallenge) then Redirect(LoginPage(loginChallenge.value, None)) else Redirect(Home)
  }

  /** `/logout` (docker/hydra/index.js:422-425): the session is destroyed and the browser sent to `/`. */
  function Logout(s: SessionState): (r: (Response, SessionState))
    ensures r.1 == Anonymous && r.0 == Redirect(Home)
  {
    (Redirect(Home), Anonymous)
  }

  /** Logging out twice is the same as logging out once, and the second time is no error. */
  lemma LogoutIdempotent(s: SessionState)
    ensures Logout(Logout(s).1) == Logout(s)
    ensures HomeView(None, None, Logout(s).1.token) == Welcome
  {
  }
}
