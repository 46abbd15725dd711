/**
 * The Express session of docker/hydra/index.js as an object whose handlers
 * update its fields in place: `oauth` is written by `/start-oauth` and deleted
 * by a successful `/callback`, `token` is written by a successful `/callback`,
 * `userTraits` by `/auth/login`, and `/logout` destroys the lot. Each handler
 * is proved to leave the session and answer exactly as the corresponding step
 * of ClientFlow, Provider or Web prescribes; the properties of those steps are
 * proved there.
 */
module HydraSession {
  import opened JsValues
  import opened Encoding
  import opened Pkce
  import opened Web
  import ClientFlow
  import Provider

  class Session {
    var oauth: Option<FlowState>
    var token: Option<TokenSet>
    var userTraits: Option<Traits>

    /** The session's record value. */
    function State(): SessionState
      reads this
    {
      SessionState(oauth, token, userTraits)
    }

    /** A session as the store creates it for a first request: empty. */
    constructor ()
      ensures State() == Anonymous
    {
      oauth, token, userTraits := None, None, None;
    }

    /** `GET /` (docker/hydra/index.js:54-168): only reads the session. */
    method Index(loginChallenge: Option<string>, error: Option<string>) returns (view: View)
      ensures view == HomeView(loginChallenge, error, token)
      ensures view.LoggedIn? ==> token == Some(view.token)
    {
      view := HomeView(loginChallenge, error, token);
    }

    /** `POST /start-oauth` (docker/hydra/index.js:171-209). */
    method StartOAuth(cfg: Config, scope: Option<string>,
                      stateBytes: seq<byte>, verifierBytes: seq<byte>, sha256: string -> Digest)
      returns (response: Response)
      requires |stateBytes| == 16 && |verifierBytes| == 32
      modifies this
      ensures var step := ClientFlow.StartOAuth(cfg, old(State()), scope, stateBytes, verifierBytes, sha256);
        response == step.response && State() == step.after
      ensures token == old(token) && userTraits == old(userTraits)
    {
      var flow := NewFlow(stateBytes, verifierBytes, sha256);
      oauth := Some(flow.stored);
      var query := AuthorizationQuery(cfg, ScopeOrDefault(scope), flow.stored.state, flow.challenge);
      response := Redirect(Authorize(AuthorizationEndpoint(cfg), query));
    }

    /** `GET /callback` (docker/hydra/index.js:212-290); `exchange` is the form posted to the token endpoint, if any. */
    method Callback(cfg: Config, q: ClientFlow.CallbackQuery, tokenEndpoint: Params -> ClientFlow.ExchangeOutcome)
      returns (response: Response, exchange: Option<Params>)
      modifies this
      ensures var step := ClientFlow.Callback(cfg, old(State()), q, tokenEndpoint);
        response == step.response && exchange == step.exchange && State() == step.after
      ensures exchange.None? ==> State() == old(State())
      ensures userTraits == old(userTraits)
    {
      if Truthy(q.error) {
        return Send(200, AuthorizationError(q.error.value, OrEmpty(q.errorDescription))), None;
      }
      if oauth.None? {
        return Send(400, SessionNotFound), None;
      }
      if q.state != Some(oauth.value.state) {
        return Send(400, InvalidState(oauth.value.state, Text(q.state))), None;
      }
      var form := TokenForm(cfg, q.code, oauth.value.verifier);
      exchange := Some(form);
      match tokenEndpoint(form) {
        case Exchanged(tokens) =>
          token := Some(tokens);
          oauth := None;
          response := Redirect(Home);
        case ExchangeFailed(detail) =>
          response := Send(500, TokenRetrievalError(detail));
      }
    }

    /** `POST /auth/login` (docker/hydra/index.js:295-354); `accepted` is the accept-login body sent, if any. */
    method AuthLogin(form: Provider.LoginForm,
                     kratosFlow: Provider.Upstream<string>,
                     kratosSubmit: Provider.KratosSubmission -> Provider.Upstream<Provider.KratosLogin>,
                     acceptLogin: (string, Provider.AcceptLogin) -> Provider.Upstream<string>)
      returns (response: Response, accepted: Option<Provider.AcceptLogin>)
      modifies this
      ensures var step := Provider.Login(old(State()), form, kratosFlow, kratosSubmit, acceptLogin);
        response == step.response && accepted == step.accepted && State() == step.after
      ensures oauth == old(oauth) && token == old(token)
    {
      if kratosFlow.Failed? {
        return Provider.LoginRetry(form, kratosFlow.response), None;
      }
      var submitted := kratosSubmit(Provider.KratosSubmission(kratosFlow.data, "password", form.email, form.password));
      if submitted.Failed? {
        return Provider.LoginRetry(form, submitted.response), None;
      }
      userTraits := Provider.TraitsAfterLogin(form.email, submitted.data);
      var body := Provider.AcceptLoginBody(form.email);
      accepted := Some(body);
      var acceptance := acceptLogin(Text(form.challenge), body);
      if acceptance.Ok? {
        response := Redirect(External(acceptance.data));
      } else {
        response := Provider.LoginRetry(form, acceptance.response);
      }
    }

    /** `GET /consent` (docker/hydra/index.js:370-417): reads the session and changes nothing. */
    method Consent(challenge: Option<string>,
                   fetchRequest: string -> Provider.Upstream<Provider.ConsentRequest>,
                   acceptConsent: (string, Provider.AcceptConsent) -> Provider.Upstream<string>)
      returns (response: Response, accepted: Option<Provider.AcceptConsent>)
      ensures Provider.ConsentStep(response, accepted) == Provider.Consent(State(), challenge, fetchRequest, acceptConsent)
      ensures accepted.Some? ==> accepted.value.accessToken.traits == userTraits.GetOr(Provider.DefaultTraits)
    {
      var step := Provider.Consent(State(), challenge, fetchRequest, acceptConsent);
      response, accepted := step.response, step.accepted;
    }

    /** `POST /logout` (docker/hydra/index.js:422-425): `session.destroy()`, then back to `/`. */
    method Logout() returns (response: Response)
      modifies this
      ensures (response, State()) == Web.Logout(old(State()))
    {
      oauth, token, userTraits := None, None, None;
      response := Redirect(Home);
    }
  }
}
