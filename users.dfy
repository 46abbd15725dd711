/**
 * The scope check of the users service (cmd/users/main.go): the API gateway
 * forwards the token introspection result base64-encoded in `X-Userinfo`;
 * `AuthMiddleware` rejects with 401 or 403 or passes the request on with the
 * caller's identity copied into headers, and `getUserInfo` reads them back.
 * Base64 and JSON decoding are parameters (partial functions); the handler
 * behind the middleware is an object that records the requests it serves.
 */
module UsersService {
  import opened JsValues
  import opened Encoding

  // ---------------------------------------------------------------- strings.Split on " "

  /** `strings.Split(s, " ")`: the pieces between single spaces; `""` gives `[""]`, and two spaces give an empty piece. */
  function Split(s: string): (pieces: seq<string>)
    ensures |pieces| >= 1
    ensures forall i :: 0 <= i < |pieces| ==> ' ' !in pieces[i]
    decreases |s|
  {
    if |s| == 0 then [""]
    else
      var rest := Split(s[1..]);
      if s[0] == ' ' then [""] + rest
      else [[s[0]] + rest[0]] + rest[1..]
  }

  /** `strings.Join(pieces, " ")`. */
  function Join(pieces: seq<string>): string
    requires |pieces| >= 1
  {
    if |pieces| == 1 then pieces[0] else pieces[0] + " " + Join(pieces[1..])
  }

  /** Joining the pieces of a split gives the text back: nothing is lost or added. */
  lemma {:induction false} JoinSplit(s: string)
    ensures Join(Split(s)) == s
    decreases |s|
  {
    if |s| > 0 {
      var rest := Split(s[1..]);
      JoinSplit(s[1..]);
      if s[0] == ' ' {
        assert Split(s) == [""] + rest;
        assert s == [' '] + s[1..];
      } else if |rest| == 1 {
        assert s == [s[0]] + s[1..];
      } else {
        assert Join(rest) == rest[0] + " " + Join(rest[1..]);
        assert Split(s)[1..] == rest[1..];
        assert s == [s[0]] + s[1..];
      }
    }
  }

  /** Text without a space is one piece. */
  lemma {:induction false} SplitNoSpace(a: string)
    requires ' ' !in a
    ensures Split(a) == [a]
    decreases |a|
  {
    if |a| > 0 {
      assert ' ' !in a[1..] by {
        forall i | 0 <= i < |a[1..]| ensures a[1..][i] != ' ' { assert a[1..][i] == a[i + 1]; }
      }
      SplitNoSpace(a[1..]);
      assert a == [a[0]] + a[1..];
    }
  }

  /** A space-free piece followed by a space splits off as the first piece. */
  lemma {:induction false} SplitAfterPiece(a: string, t: string)
    requires ' ' !in a
    ensures Split(a + " " + t) == [a] + Split(t)
    decreases |a|
  {
    if |a| == 0 {
      assert a + " " + t == [' '] + t;
      assert (a + " " + t)[1..] == t;
    } else {
      assert ' ' !in a[1..] by {
        forall i | 0 <= i < |a[1..]| ensures a[1..][i] != ' ' { assert a[1..][i] == a[i + 1]; }
      }
      SplitAfterPiece(a[1..], t);
      assert (a + " " + t)[1..] == a[1..] + " " + t;
      assert a == [a[0]] + a[1..];
    }
  }

  /** Splitting a join of space-free pieces gives the pieces back. */
  lemma {:induction false} SplitJoin(pieces: seq<string>)
    requires |pieces| >= 1
    requires forall i :: 0 <= i < |pieces| ==> ' ' !in pieces[i]
    ensures Split(Join(pieces)) == pieces
    decreases |pieces|
  {
    if |pieces| == 1 {
      SplitNoSpace(pieces[0]);
    } else {
      SplitJoin(pieces[1..]);
      SplitAfterPiece(pieces[0], Join(pieces[1..]));
      assert pieces == [pieces[0]] + pieces[1..];
    }
  }

  // ---------------------------------------------------------------- hasRequiredScopes

  /** Every required scope is, exactly, one of the user's scopes. */
  predicate Covers(userScopes: seq<string>, requiredScopes: seq<string>) {
    forall r :: r in requiredScopes ==> r in userScopes
  }

  /**
   * `hasRequiredScopes` (cmd/users/main.go:64-76): the user's scopes go into a
   * map, then each required scope is looked up (a missing key reads as false).
   */
  method HasRequiredScopes(userScopes: seq<string>, requiredScopes: seq<string>) returns (ok: bool)
    ensures ok <==> Covers(userScopes, requiredScopes)
  {
    var scopeMap: map<string, bool> := map[];
    for i := 0 to |userScopes|
      invariant forall s :: s in scopeMap <==> s in userScopes[..i]
      invariant forall s :: s in scopeMap ==> scopeMap[s]
    {
      scopeMap := scopeMap[userScopes[i] := true];
    }
    assert userScopes[..|userScopes|] == userScopes;
    for j := 0 to |requiredScopes|
      invariant forall k :: 0 <= k < j ==> requiredScopes[k] in userScopes
    {
      var required := requiredScopes[j];
      var present := if required in scopeMap then scopeMap[required] else false;
      if !present {
        return false;
      }
    }
    return true;
  }

  /** No required scope: always allowed. */
  lemma NothingRequired(userScopes: seq<string>)
    ensures Covers(userScopes, [])
  {
  }

  /** Only which scopes the user has matters, not their order or repetitions. */
  lemma CoversIgnoresOrderAndDuplicates(u1: seq<string>, u2: seq<string>, requiredScopes: seq<string>)
    requires forall s :: s in u1 <==> s in u2
    ensures Covers(u1, requiredScopes) <==> Covers(u2, requiredScopes)
  {
  }

  /** More user scopes never turn an allowed request into a refused one. */
  lemma CoversMonotone(u1: seq<string>, u2: seq<string>, requiredScopes: seq<string>)
    requires forall s :: s in u1 ==> s in u2
    requires Covers(u1, requiredScopes)
    ensures Covers(u2, requiredScopes)
  {
  }

  // ---------------------------------------------------------------- AuthMiddleware

  /** The introspection result carried in `X-Userinfo` (cmd/users/main.go:15-20). */
  datatype UserInfo = UserInfo(sub: string, scope: string, clientId: string, active: bool)

  /** Request headers: canonical name to values (`http.Header`). */
  type Header = map<string, seq<string>>

  // Canonical header names, as `Header.Get` and `Header.Set` spell them.
  const UserInfoHeader := "X-Userinfo"
  const UserIdHeader := "X-User-Id"
  const UserScopesHeader := "X-User-Scopes"
  const ClientIdHeader := "X-Client-Id"

  /** `Header.Get`: the first value, or "" when there is none. */
  function HeaderGet(h: Header, name: string): string {
    if name in h && |h[name]| > 0 then h[name][0] else ""
  }

  /** `Header.Set`: the name now has exactly this one value. */
  function HeaderSet(h: Header, name: string, value: string): Header {
    h[name := [value]]
  }

  /** The headers after a passing check (cmd/users/main.go:55-57). */
  function WithUserHeaders(h: Header, info: UserInfo): Header {
    HeaderSet(HeaderSet(HeaderSet(h, UserIdHeader, info.sub), UserScopesHeader, info.scope), ClientIdHeader, info.clientId)
  }

  /** What the middleware decides: reject with a status and message, or pass with the decoded user info. */
  datatype Decision = Reject(status: nat, message: string) | Proceed(info: UserInfo)

  /**
   * The decision chain of `AuthMiddleware` (cmd/users/main.go:25-53): 401 for a
   * missing header, then for undecodable base64, then for unparsable JSON, then
   * for an inactive token; 403 when an active token lacks a required scope;
   * otherwise pass.
   */
  function Authorize(h: Header, requiredScopes: seq<string>,
                     decodeBase64: string -> Option<seq<byte>>,
                     parseUserInfo: seq<byte> -> Option<UserInfo>): (d: Decision)
    ensures d.Reject? ==> d.status == 401 || d.status == 403
    ensures d.Reject? && d.status == 401 <==>
      || HeaderGet(h, UserInfoHeader) == ""
      || decodeBase64(HeaderGet(h, UserInfoHeader)).None?
      || parseUserInfo(decodeBase64(HeaderGet(h, UserInfoHeader)).value).None?
      || !parseUserInfo(decodeBase64(HeaderGet(h, UserInfoHeader)).value).value.active
    ensures d.Proceed? ==>
      && decodeBase64(HeaderGet(h, UserInfoHeader)).Some?
      && parseUserInfo(decodeBase64(HeaderGet(h, UserInfoHeader)).value) == Some(d.info)
      && d.info.active
      && Covers(Split(d.info.scope), requiredScopes)
    ensures d == Reject(403, "Forbidden: Insufficient permissions") <==>
      && !(d.Reject? && d.status == 401)
      && !Covers(Split(parseUserInfo(decodeBase64(HeaderGet(h, UserInfoHeader)).value).value.scope), requiredScopes)
  {
    var header := HeaderGet(h, UserInfoHeader);
    if header == "" then Reject(401, "Unauthorized: Missing user info")
    else match decodeBase64(header)
      case None => Reject(401, "Unauthorized: Invalid user info format")
      case Some(decoded) =>
        match parseUserInfo(decoded)
        case None => Reject(401, "Unauthorized: Invalid user info JSON")
        case Some(info) =>
          if !info.active then Reject(401, "Unauthorized: Token is not active")
          else if !Covers(Split(info.scope), requiredScopes) then Reject(403, "Forbidden: Insufficient permissions")
          else Proceed(info)
  }

  /** The 401 messages name the first check that failed, in the order of the chain. */
  lemma UnauthorizedOrder(h: Header, requiredScopes: seq<string>,
                          decodeBase64: string -> Option<seq<byte>>,
                          parseUserInfo: seq<byte> -> Option<UserInfo>)
    ensures var d := Authorize(h, requiredScopes, decodeBase64, parseUserInfo);
      var header := HeaderGet(h, UserInfoHeader);
      && (header == "" ==> d == Reject(401, "Unauthorized: Missing user info"))
      && (header != "" && decodeBase64(header).None? ==> d == Reject(401, "Unauthorized: Invalid user info format"))
      && (header != "" && decodeBase64(header).Some? && parseUserInfo(decodeBase64(header).value).None? ==>
            d == Reject(401, "Unauthorized: Invalid user info JSON"))
      && (header != "" && decodeBase64(header).Some? && parseUserInfo(decodeBase64(header).value).Some?
          && !parseUserInfo(decodeBase64(header).value).value.active ==>
            d == Reject(401, "Unauthorized: Token is not active"))
  {
  }

  /** `getUserInfo` (cmd/users/main.go:78-82): the user id and the space-split scopes from the headers. */
  function GetUserInfo(h: Header): (string, seq<string>) {
    (HeaderGet(h, UserIdHeader), Split(HeaderGet(h, UserScopesHeader)))
  }

  /**
   * Behind a passing middleware, `getUserInfo` sees the token's subject and
   * exactly the scope list the middleware checked, so it holds every required scope.
   */
  lemma UserInfoSeenByHandler(h: Header, requiredScopes: seq<string>,
                              decodeBase64: string -> Option<seq<byte>>,
                              parseUserInfo: seq<byte> -> Option<UserInfo>)
    requires Authorize(h, requiredScopes, decodeBase64, parseUserInfo).Proceed?
    ensures var info := Authorize(h, requiredScopes, decodeBase64, parseUserInfo).info;
      var (userId, scopes) := GetUserInfo(WithUserHeaders(h, info));
      && userId == info.sub
      && scopes == Split(info.scope)
      && Covers(scopes, requiredScopes)
      && HeaderGet(WithUserHeaders(h, info), ClientIdHeader) == info.clientId
  {
  }

  /** The scopes `/admin/stats` requires (cmd/users/main.go:120). */
  const AdminStatsScopes := ["admin:read", "users:read"]

  /** `/admin/stats` passes the scope check only with both `admin:read` and `users:read`. */
  lemma AdminStatsNeedsBoth(scope: string)
    ensures Covers(Split(scope), AdminStatsScopes) <==> "admin:read" in Split(scope) && "users:read" in Split(scope)
  {
  }

  /**
   * Matching is exact on whole pieces: a scope text without spaces grants exactly
   * itself, so `users:read` does not grant `users`, and `admin:read` alone does
   * not grant `users:read`.
   */
  lemma {:induction false} SingleScopeGrantsOnlyItself(scope: string, required: string)
    requires ' ' !in scope
    ensures Covers(Split(scope), [required]) <==> required == scope
  {
    SplitNoSpace(scope);
    assert required in [required];
  }

  /** A space-separated list holding both scopes opens `/admin/stats`. */
  lemma {:induction false} AdminStatsGranted()
    ensures Covers(Split("openid admin:read users:read"), AdminStatsScopes)
  {
    var pieces := ["openid", "admin:read", "users:read"];
    assert ' ' !in pieces[0] && ' ' !in pieces[1] && ' ' !in pieces[2];
    assert Join(pieces) == "openid admin:read users:read";
    SplitJoin(pieces);
  }

  /** An HTTP error written by `http.Error`. */
  datatype HttpError = HttpError(status: nat, message: string)

  /** An incoming request; the middleware updates its headers in place. */
  class Request {
    var header: Header

    constructor (h: Header)
      ensures header == h
    {
      header := h;
    }
  }

  /** The handler behind the middleware (`next`); it records the headers of each request it serves. */
  class Handler {
    var served: seq<Header>

    constructor ()
      ensures served == []
    {
      served := [];
    }

    method ServeHTTP(r: Request)
      modifies this
      ensures served == old(served) + [r.header]
    {
      served := served + [r.header];
    }
  }

  /**
   * `AuthMiddleware(requiredScopes...)` applied to `next` and run on `r`
   * (cmd/users/main.go:22-62): on a rejection, the error is written, the headers
   * are untouched and `next` is not called; on a pass, the three identity headers
   * are set and `next` serves the request exactly once.
   */
  method AuthMiddleware(requiredScopes: seq<string>, r: Request, next: Handler,
                        decodeBase64: string -> Option<seq<byte>>,
                        parseUserInfo: seq<byte> -> Option<UserInfo>)
    returns (rejection: Option<HttpError>)
    modifies r, next
    ensures var d := Authorize(old(r.header), requiredScopes, decodeBase64, parseUserInfo);
      && (d.Reject? ==>
            rejection == Some(HttpError(d.status, d.message)) && r.header == old(r.header) && next.served == old(next.served))
      && (d.Proceed? ==>
            rejection.None? && r.header == WithUserHeaders(old(r.header), d.info) && next.served == old(next.served) + [r.header])
  {
    var userInfoHeader := HeaderGet(r.header, UserInfoHeader);
    if userInfoHeader == "" {
      return Some(HttpError(401, "Unauthorized: Missing user info"));
    }
    var decoded := decodeBase64(userInfoHeader);
    if decoded.None? {
      return Some(HttpError(401, "Unauthorized: Invalid user info format"));
    }
    var userInfo := parseUserInfo(decoded.value);
    if userInfo.None? {
      return Some(HttpError(401, "Unauthorized: Invalid user info JSON"));
    }
    if !userInfo.value.active {
      return Some(HttpError(401, "Unauthorized: Token is not active"));
    }
    var userScopes := Split(userInfo.value.scope);
    var allowed := HasRequiredScopes(userScopes, requiredScopes);
    if !allowed {
      return Some(HttpError(403, "Forbidden: Insufficient permissions"));
    }
    r.header := HeaderSet(r.header, UserIdHeader, userInfo.value.sub);
    r.header := HeaderSet(r.header, UserScopesHeader, userInfo.value.scope);
    r.header := HeaderSet(r.header, ClientIdHeader, userInfo.value.clientId);
    next.ServeHTTP(r);
    return None;
  }
}
