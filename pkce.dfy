/**
 * Building blocks of the Authorization Code flow with PKCE as the OAuth2
 * client in docker/hydra/index.js performs it: the per-flow state and code
 * verifier (section 4.1 of RFC 7636), the code challenge (section 4.2 of
 * RFC 7636, method S256), the authorization request query (section 4.1.1 of
 * RFC 6749) and the token request form (section 4.1.3 of RFC 6749, section 4.5
 * of RFC 7636).
 */
module Pkce {
  import opened JsValues
  import opened Encoding

  /** A SHA-256 digest: 32 bytes. The hash itself is a parameter of the model. */
  type Digest = s: seq<byte> | |s| == 32 witness seq(32, i => 0)

  /** The settings the client reads from its environment (docker/hydra/index.js:10-16). */
  datatype Config = Config(
    hydraPublicUrl: string,
    hydraInternalUrl: string,
    hydraAdminUrl: string,
    clientId: string,
    clientSecret: string,
    redirectUri: string)

  /** The flow state kept in the session between the redirect and the callback (`session.oauth`). */
  datatype FlowState = FlowState(state: string, verifier: string)

  /** A fresh flow: what is stored, and the challenge that is sent. */
  datatype Flow = Flow(stored: FlowState, challenge: string)

  /** The challenge of a verifier under method S256: BASE64URL(SHA256(ASCII(verifier))). */
  function S256(sha256: string -> Digest, verifier: string): (challenge: string)
    ensures |challenge| == 43
    ensures forall i :: 0 <= i < 43 ==> IsBase64UrlChar(challenge[i])
  {
    Base64Url(sha256(verifier))
  }

  /**
   * The state and verifier of a new flow from 16 and 32 random bytes
   * (docker/hydra/index.js:173-178). The state is 32 lower-case hex digits,
   * the verifier 43 unreserved characters (inside the 43..128 range of RFC 7636),
   * each decodes back to its random bytes, and the challenge is S256 of the verifier.
   */
  function NewFlow(stateBytes: seq<byte>, verifierBytes: seq<byte>, sha256: string -> Digest): (f: Flow)
    requires |stateBytes| == 16 && |verifierBytes| == 32
    ensures |f.stored.state| == 32 && forall i :: 0 <= i < 32 ==> IsLowerHex(f.stored.state[i])
    ensures 43 <= |f.stored.verifier| <= 128 && |f.stored.verifier| == 43
    ensures forall i :: 0 <= i < |f.stored.verifier| ==> IsUnreserved(f.stored.verifier[i])
    ensures HexDecode(f.stored.state) == Some(stateBytes)
    ensures Base64UrlDecode(f.stored.verifier) == Some(verifierBytes)
    ensures f.challenge == S256(sha256, f.stored.verifier)
  {
    HexRoundTrip(stateBytes);
    Base64UrlRoundTrip(verifierBytes);
    var verifier := Base64Url(verifierBytes);
    assert forall i :: 0 <= i < |verifier| ==> IsUnreserved(verifier[i]) by {
      forall i | 0 <= i < |verifier| ensures IsUnreserved(verifier[i]) {
        Base64UrlCharIsUnreserved(verifier[i]);
      }
    }
    Flow(FlowState(Hex(stateBytes), verifier), S256(sha256, verifier))
  }

  /** Form fields and query parameters, in order (`URLSearchParams`). */
  type Params = seq<(string, string)>

  /** The names of the parameters, in order. */
  function Names(p: Params): (names: seq<string>)
    ensures |names| == |p|
    ensures forall i :: 0 <= i < |p| ==> names[i] == p[i].0
  {
    if p == [] then [] else [p[0].0] + Names(p[1..])
  }

  /** The value of the first parameter called `name` (`URLSearchParams.get`). */
  function Lookup(p: Params, name: string): Option<string> {
    if p == [] then None
    else if p[0].0 == name then Some(p[0].1)
    else Lookup(p[1..], name)
  }

  /** The value found for a name is that of its first occurrence. */
  lemma {:induction false} LookupFirst(p: Params, i: nat, name: string)
    requires i < |p| && p[i].0 == name
    requires forall j :: 0 <= j < i ==> p[j].0 != name
    ensures Lookup(p, name) == Some(p[i].1)
  {
    if i > 0 {
      LookupFirst(p[1..], i - 1, name);
    }
  }

  /** The scope requested: the submitted one, or "openid offline" when it is missing or empty. */
  function ScopeOrDefault(scope: Option<string>): string {
    if Truthy(scope) then scope.value else "openid offline"
  }

  /** The query of the redirect to the authorization endpoint (docker/hydra/index.js:195-203). */
  function AuthorizationQuery(cfg: Config, scope: string, state: string, challenge: string): Params {
    [("client_id", cfg.clientId),
     ("redirect_uri", cfg.redirectUri),
     ("response_type", "code"),
     ("scope", scope),
     ("state", state),
     ("code_challenge", challenge),
     ("code_challenge_method", "S256")]
  }

  /** The authorization endpoint the browser is sent to (docker/hydra/index.js:205). */
  function AuthorizationEndpoint(cfg: Config): string {
    cfg.hydraPublicUrl + "/oauth2/auth"
  }

  /** The form posted to the token endpoint (docker/hydra/index.js:261-268); a missing code is sent as "undefined". */
  function TokenForm(cfg: Config, code: Option<string>, verifier: string): Params {
    [("grant_type", "authorization_code"),
     ("code", Text(code)),
     ("redirect_uri", cfg.redirectUri),
     ("client_id", cfg.clientId),
     ("client_secret", cfg.clientSecret),
     ("code_verifier", verifier)]
  }

  /**
   * The authorization query names exactly the seven parameters of an
   * authorization request with PKCE, once each, with the fixed
   * `response_type=code` and `code_challenge_method=S256`, and the scope
   * falls back to "openid offline" when it is missing or empty.
   */
  lemma AuthorizationQueryFields(cfg: Config, scope: Option<string>, state: string, challenge: string)
    ensures var q := AuthorizationQuery(cfg, ScopeOrDefault(scope), state, challenge);
      && Names(q) == ["client_id", "redirect_uri", "response_type", "scope", "state", "code_challenge", "code_challenge_method"]
      && Lookup(q, "client_id") == Some(cfg.clientId)
      && Lookup(q, "redirect_uri") == Some(cfg.redirectUri)
      && Lookup(q, "response_type") == Some("code")
      && Lookup(q, "state") == Some(state)
      && Lookup(q, "code_challenge") == Some(challenge)
      && Lookup(q, "code_challenge_method") == Some("S256")
      && Lookup(q, "scope") == Some(if Truthy(scope) then scope.value else "openid offline")
      && Lookup(q, "scope") != Some("")
  {
    var q := AuthorizationQuery(cfg, ScopeOrDefault(scope), state, challenge);
    LookupFirst(q, 0, "client_id");
    LookupFirst(q, 1, "redirect_uri");
    LookupFirst(q, 2, "response_type");
    LookupFirst(q, 3, "scope");
    LookupFirst(q, 4, "state");
    LookupFirst(q, 5, "code_challenge");
    LookupFirst(q, 6, "code_challenge_method");
  }

  /** The token form is an authorization_code grant carrying the client's redirect URI and the given verifier. */
  lemma TokenFormFields(cfg: Config, code: Option<string>, verifier: string)
    ensures var f := TokenForm(cfg, code, verifier);
      && Names(f) == ["grant_type", "code", "redirect_uri", "client_id", "client_secret", "code_verifier"]
      && Lookup(f, "grant_type") == Some("authorization_code")
      && Lookup(f, "code") == Some(Text(code))
      && Lookup(f, "redirect_uri") == Some(cfg.redirectUri)
      && Lookup(f, "client_id") == Some(cfg.clientId)
      && Lookup(f, "client_secret") == Some(cfg.clientSecret)
      && Lookup(f, "code_verifier") == Some(verifier)
  {
    var f := TokenForm(cfg, code, verifier);
    LookupFirst(f, 0, "grant_type");
    LookupFirst(f, 1, "code");
    LookupFirst(f, 2, "redirect_uri");
    LookupFirst(f, 3, "client_id");
    LookupFirst(f, 4, "client_secret");
    LookupFirst(f, 5, "code_verifier");
  }
}
