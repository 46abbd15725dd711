/**
 * The login and consent provider half of docker/hydra/index.js: `/auth/login`
 * checks credentials with the identity provider (Kratos) and accepts the login
 * at the authorization server (Hydra); `/consent` fetches the consent request
 * and accepts it. Every outbound call is a parameter returning an abstract
 * outcome, so the model records what each handler asks the servers to accept.
 */
module Provider {
  import opened JsValues
  import opened Web

  // ---------------------------------------------------------------- upstream errors

  /** One entry of `ui.messages` in an identity-provider error. */
  datatype UiMessage = UiMessage(text: Option<string>)

  datatype Ui = Ui(messages: Option<seq<UiMessage>>)

  datatype ErrorDetail = ErrorDetail(message: Option<string>)

  /** The body of an upstream error response: plain text, or a JSON object with the fields the handler looks at. */
  datatype ErrorBody =
    | TextBody(text: string)
    | JsonBody(error: Option<ErrorDetail>, message: Option<string>, ui: Option<Ui>)

  /** An HTTP error response (`error.response`); its body (`data`) may be missing. */
  datatype ErrorResponse = ErrorResponse(data: Option<ErrorBody>)

  /** The outcome of an outbound call: its payload, or a failure that may carry an HTTP response. */
  datatype Upstream<+T> = Ok(data: T) | Failed(response: Option<ErrorResponse>)

  const LoginFailed := "Login failed"

  /** `messages.map(m => m.text).join(' ')`: a missing text joins as the empty string. */
  function JoinTexts(ms: seq<UiMessage>): string {
    if |ms| == 0 then ""
    else if |ms| == 1 then OrEmpty(ms[0].text)
    else OrEmpty(ms[0].text) + " " + JoinTexts(ms[1..])
  }

  /**
   * The message shown after a failed login (docker/hydra/index.js:339-350): a
   * non-empty text body, else a non-empty `error.message`, else a non-empty
   * `message`, else the texts of a non-empty `ui.messages` list joined by spaces,
   * else "Login failed".
   */
  function LoginErrorMessage(failure: Option<ErrorResponse>): string {
    if failure.None? || failure.value.data.None? then LoginFailed
    else match failure.value.data.value
      case TextBody(text) => if text != "" then text else LoginFailed
      case JsonBody(error, message, ui) =>
        if error.Some? && Truthy(error.value.message) then error.value.message.value
        else if Truthy(message) then message.value
        else if ui.Some? && ui.value.messages.Some? && |ui.value.messages.value| > 0 then JoinTexts(ui.value.messages.value)
        else LoginFailed
  }

  /**
   * Reference definition of the same rule: every field of the error that the
   * handler would accept, listed in order of precedence. Each field is judged
   * on its own, without the if-chain.
   */
  function MessageCandidates(failure: Option<ErrorResponse>): (c: seq<string>)
    ensures |c| <= 3
  {
    if failure.None? || failure.value.data.None? then []
    else match failure.value.data.value
      case TextBody(text) => if text != "" then [text] else []
      case JsonBody(error, message, ui) =>
        (if error.Some? && Truthy(error.value.message) then [error.value.message.value] else [])
        + (if Truthy(message) then [message.value] else [])
        + (if ui.Some? && ui.value.messages.Some? && |ui.value.messages.value| > 0
           then [JoinTexts(ui.value.messages.value)] else [])
  }

  /**
   * The message is the first candidate by precedence, and "Login failed" exactly
   * when there is none (no response, no body, or no field set; an empty
   * `ui.messages` list is no candidate).
   */
  lemma LoginErrorMessageIsFirstCandidate(failure: Option<ErrorResponse>)
    ensures var c := MessageCandidates(failure);
      LoginErrorMessage(failure) == if |c| > 0 then c[0] else LoginFailed
  {
  }

  /** Precedence spelled out: a structured `error.message` wins over `message` and the UI messages. */
  lemma ErrorMessageWins(detail: string, message: Option<string>, ui: Option<Ui>)
    requires detail != ""
    ensures LoginErrorMessage(Some(ErrorResponse(Some(JsonBody(Some(ErrorDetail(Some(detail))), message, ui))))) == detail
  {
  }

  /** With no other field set, an empty `ui.messages` list gives the default message, a non-empty one the joined texts. */
  lemma UiMessagesFallback(ms: seq<UiMessage>)
    ensures LoginErrorMessage(Some(ErrorResponse(Some(JsonBody(None, None, Some(Ui(Some(ms))))))))
            == if |ms| == 0 then LoginFailed else JoinTexts(ms)
  {
  }

  // ---------------------------------------------------------------- login

  /** The fields of the login form: `email`, `password`, and the hidden `challenge`. */
  datatype LoginForm = LoginForm(email: Option<string>, password: Option<string>, challenge: Option<string>)

  /** The credentials submitted to the identity provider's login flow `flowId` (docker/hydra/index.js:304-314). */
  datatype KratosSubmission = KratosSubmission(flowId: string, loginMethod: string, identifier: Option<string>, password: Option<string>)

  datatype Identity = Identity(traits: Option<Traits>)

  /** A successful identity-provider login: `data.session.identity`, missing when any link of that chain is missing. */
  datatype KratosLogin = KratosLogin(identity: Option<Identity>)

  /** The body of the accept-login call (docker/hydra/index.js:329-334). */
  datatype AcceptLogin = AcceptLogin(subject: Option<string>, remember: bool, rememberFor: int, acr: string)

  /** A login's response, the accept-login body it sent (if any), and the session it leaves behind. */
  datatype LoginStep = LoginStep(response: Response, accepted: Option<AcceptLogin>, after: SessionState)

  /** The subject is the email typed into the form, remembered for an hour, with acr "0". */
  function AcceptLoginBody(email: Option<string>): (b: AcceptLogin)
    ensures b.subject == email && b.remember && b.rememberFor == 3600 && b.acr == "0"
  {
    AcceptLogin(email, true, 3600, "0")
  }

  /** The traits kept for consent: the identity's traits when the identity is there, else `{ email }` from the form. */
  function TraitsAfterLogin(email: Option<string>, k: KratosLogin): Option<Traits> {
    if k.identity.Some? then k.identity.value.traits else Some(Traits(email, None, None))
  }

  /** Back to the login form with the original challenge and the extracted message. */
  function LoginRetry(form: LoginForm, failure: Option<ErrorResponse>): Response {
    Redirect(LoginPage(Text(form.challenge), Some(LoginErrorMessage(failure))))
  }

  /**
   * `/auth/login` (docker/hydra/index.js:295-354): fetch a login flow, submit the
   * credentials to it, store the traits, then accept the login for the challenge.
   * Any failure sends the browser back to the login form with the challenge and a
   * message; only `userTraits` is ever written, and only once the credentials
   * were accepted.
   */
  function Login(s: SessionState, form: LoginForm,
                 kratosFlow: Upstream<string>,
                 kratosSubmit: KratosSubmission -> Upstream<KratosLogin>,
                 acceptLogin: (string, AcceptLogin) -> Upstream<string>): (r: LoginStep)
    ensures r.after.oauth == s.oauth && r.after.token == s.token
    ensures r.accepted.Some? <==>
      kratosFlow.Ok? && kratosSubmit(KratosSubmission(kratosFlow.data, "password", form.email, form.password)).Ok?
    ensures r.accepted.None? ==> r.after == s
    ensures r.accepted.Some? ==> r.accepted.value.subject == form.email
    ensures r.response.Redirect? && (r.response.to.External? || r.response.to.LoginPage?)
    ensures r.response.to.External? <==> r.accepted.Some? && acceptLogin(Text(form.challenge), r.accepted.value).Ok?
    ensures r.response.to.LoginPage? ==> r.response.to.challenge == Text(form.challenge) && r.response.to.error.Some?
    ensures kratosFlow.Failed? ==> r == LoginStep(LoginRetry(form, kratosFlow.response), None, s)
    ensures kratosFlow.Ok? ==>
      var submitted := kratosSubmit(KratosSubmission(kratosFlow.data, "password", form.email, form.password));
      && (submitted.Failed? ==> r == LoginStep(LoginRetry(form, submitted.response), None, s))
      && (submitted.Ok? ==>
            var body := AcceptLoginBody(form.email);
            var acceptance := acceptLogin(Text(form.challenge), body);
            && r.accepted == Some(body)
            && r.after == s.(userTraits := TraitsAfterLogin(form.email, submitted.data))
            && (acceptance.Ok? ==> r.response == Redirect(External(acceptance.data)))
            && (acceptance.Failed? ==> r.response == LoginRetry(form, acceptance.response)))
  {
    match kratosFlow
    case Failed(e) => LoginStep(LoginRetry(form, e), None, s)
    case Ok(flowId) =>
      match kratosSubmit(KratosSubmission(flowId, "password", form.email, form.password))
      case Failed(e) => LoginStep(LoginRetry(form, e), None, s)
      case Ok(k) =>
        var after := s.(userTraits := TraitsAfterLogin(form.email, k));
        var body := AcceptLoginBody(form.email);
        match acceptLogin(Text(form.challenge), body)
        case Ok(redirectTo) => LoginStep(Redirect(External(redirectTo)), Some(body), after)
        case Failed(e) => LoginStep(LoginRetry(form, e), Some(body), after)
  }

  /**
   * Once the identity provider accepts the credentials, the traits are stored even
   * when the authorization server then refuses the login: the session is changed
   * on that failure path.
   */
  lemma TraitsStoredBeforeAccept(s: SessionState, form: LoginForm, flowId: string, k: KratosLogin,
                                 kratosSubmit: KratosSubmission -> Upstream<KratosLogin>,
                                 acceptLogin: (string, AcceptLogin) -> Upstream<string>)
    requires kratosSubmit(KratosSubmission(flowId, "password", form.email, form.password)) == Ok(k)
    requires acceptLogin(Text(form.challenge), AcceptLoginBody(form.email)).Failed?
    ensures var r := Login(s, form, Ok(flowId), kratosSubmit, acceptLogin);
      && r.response == LoginRetry(form, acceptLogin(Text(form.challenge), AcceptLoginBody(form.email)).response)
      && r.after.userTraits == TraitsAfterLogin(form.email, k)
  {
  }

  // ---------------------------------------------------------------- consent

  /** What the authorization server reports about a pending consent. */
  datatype ConsentRequest = ConsentRequest(requestedScope: seq<string>, requestedAudience: seq<string>)

  datatype AccessTokenClaims = AccessTokenClaims(email: Option<string>, traits: Traits)

  datatype IdTokenClaims = IdTokenClaims(email: Option<string>, name: Option<string>, traits: Traits)

  /** The body of the accept-consent call (docker/hydra/index.js:393-409). */
  datatype AcceptConsent = AcceptConsent(
    grantScope: seq<string>,
    grantAudience: seq<string>,
    remember: bool,
    rememberFor: int,
    accessToken: AccessTokenClaims,
    idToken: IdTokenClaims)

  /** A consent's response and the accept-consent body it sent (if any). The session is only read. */
  datatype ConsentStep = ConsentStep(response: Response, accepted: Option<AcceptConsent>)

  /** The identity used when the session holds no traits (docker/hydra/index.js:384-388). */
  const DefaultTraits := Traits(Some("test@example.com"), Some("Test User"), Some(["admin", "user"]))

  /** The traits a consent is granted with: the session's, else the fixed default. */
  function ConsentTraits(s: SessionState): (t: Traits)
    ensures s.userTraits.Some? ==> t == s.userTraits.value
    ensures s.userTraits.None? ==> t == DefaultTraits
  {
    s.userTraits.GetOr(DefaultTraits)
  }

  /** Grants exactly what was requested, remembered for an hour, with the traits' email in both tokens. */
  function AcceptConsentBody(request: ConsentRequest, traits: Traits): AcceptConsent {
    AcceptConsent(
      request.requestedScope, request.requestedAudience, true, 3600,
      AccessTokenClaims(traits.email, traits),
      IdTokenClaims(traits.email, traits.name, traits))
  }

  /**
   * `/consent` (docker/hydra/index.js:370-417): a missing or empty challenge gives
   * 400; otherwise the consent request is fetched and accepted with exactly the
   * requested scope and audience, and any upstream failure gives 500.
   */
  function Consent(s: SessionState, challenge: Option<string>,
                   fetchRequest: string -> Upstream<ConsentRequest>,
                   acceptConsent: (string, AcceptConsent) -> Upstream<string>): (r: ConsentStep)
    ensures !Truthy(challenge) ==> r == ConsentStep(Send(400, MissingConsentChallenge), None)
    ensures r.accepted.Some? <==> Truthy(challenge) && fetchRequest(challenge.value).Ok?
    ensures r.accepted.Some? ==>
      var requested := fetchRequest(challenge.value).data;
      var body := r.accepted.value;
      && body.grantScope == requested.requestedScope
      && body.grantAudience == requested.requestedAudience
      && body.accessToken.traits == body.idToken.traits == ConsentTraits(s)
      && body.accessToken.email == body.idToken.email == ConsentTraits(s).email
      && body.idToken.name == ConsentTraits(s).name
    ensures r.response.Redirect? <==> r.accepted.Some? && acceptConsent(challenge.value, r.accepted.value).Ok?
    ensures r.response.Redirect? ==> r.response.to == External(acceptConsent(challenge.value, r.accepted.value).data)
    ensures Truthy(challenge) && !r.response.Redirect? ==> r.response == Send(500, ConsentError)
  {
    if !Truthy(challenge) then ConsentStep(Send(400, MissingConsentChallenge), None)
    else match fetchRequest(challenge.value)
      case Failed(_) => ConsentStep(Send(500, ConsentError), None)
      case Ok(request) =>
        var body := AcceptConsentBody(request, ConsentTraits(s));
        match acceptConsent(challenge.value, body)
        case Ok(redirectTo) => ConsentStep(Redirect(External(redirectTo)), Some(body))
        case Failed(_) => ConsentStep(Send(500, ConsentError), Some(body))
  }

  /**
   * Login then consent: the consent is granted with the traits the login stored —
   * the identity's traits, or `{ email }` when the identity provider returned no
   * identity — and falls back to the default identity only when the identity
   * carried no traits.
   */
  lemma {:induction false} ConsentUsesLoginTraits(s: SessionState, form: LoginForm, flowId: string, k: KratosLogin,
                                kratosSubmit: KratosSubmission -> Upstream<KratosLogin>,
                                acceptLogin: (string, AcceptLogin) -> Upstream<string>,
                                challenge: string,
                                fetchRequest: string -> Upstream<ConsentRequest>,
                                acceptConsent: (string, AcceptConsent) -> Upstream<string>)
    requires kratosSubmit(KratosSubmission(flowId, "password", form.email, form.password)) == Ok(k)
    requires challenge != "" && fetchRequest(challenge).Ok?
    ensures var login := Login(s, form, Ok(flowId), kratosSubmit, acceptLogin);
      var consent := Consent(login.after, Some(challenge), fetchRequest, acceptConsent);
      && consent.accepted.Some?
      && consent.accepted.value.accessToken.traits == TraitsAfterLogin(form.email, k).GetOr(DefaultTraits)
      && (k.identity.None? ==> consent.accepted.value.accessToken.email == form.email)
  {
    var login := Login(s, form, Ok(flowId), kratosSubmit, acceptLogin);
    assert login.after.userTraits == TraitsAfterLogin(form.email, k);
  }
}
