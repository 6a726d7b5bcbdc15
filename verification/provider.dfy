/**
  The identity provider of pkg/mock/openid.go: authorization codes bound to a
  redirect URI, a nonce and a PKCE challenge (section 4.6 of RFC 7636), and
  refresh tokens that are replaced whenever they are used (section 10.4 of
  RFC 6749).

  Random identifiers and the validity of a client assertion are arguments.  The
  S256 transformation is an argument as well, an arbitrary function.
 */
module Provider {
  import opened SessionTime
  import opened Wrappers

  datatype ProviderConfig = ProviderConfig(issuer: string, sidClaimRequired: bool, sessionStateRequired: bool, tokenDuration: int)

  datatype AuthorizeRequest = AuthorizeRequest(
    acrLevel: string, clientID: string, codeChallenge: string, locale: string,
    nonce: string, redirectUri: string, sessionID: string)

  datatype RefreshTokenData = RefreshTokenData(clientID: string, refreshToken: string, sessionID: string)

  datatype State = State(
    codes: map<string, AuthorizeRequest>,
    sessions: map<string, string>,
    refreshTokens: map<string, RefreshTokenData>)

  datatype Status = BadRequest | Unauthorized | ServerError

  // ------------------------------------------------------- authorization

  datatype AuthorizeQuery = AuthorizeQuery(
    state: string, redirectUri: string, nonce: string, responseMode: string, responseType: string,
    clientID: string, scopes: seq<string>, codeChallenge: string, codeChallengeMethod: string,
    acrValues: string, uiLocales: string)

  const ALLOWED_ACR: set<string> := {"", "Level3", "Level4"}
  const ALLOWED_LOCALES: set<string> := {"", "nb", "nn", "en", "se"}

  predicate ValidQuery(q: AuthorizeQuery) {
    && |q.state| > 0 && |q.nonce| > 0 && |q.redirectUri| > 0 && |q.clientID| > 0 && |q.codeChallenge| > 0
    && q.codeChallengeMethod == "S256" && q.responseType == "code" && q.responseMode == "query"
    && q.acrValues in ALLOWED_ACR && q.uiLocales in ALLOWED_LOCALES
    && "openid" in q.scopes
  }

  function RequestOf(q: AuthorizeQuery, sessionID: string): AuthorizeRequest {
    AuthorizeRequest(q.acrValues, q.clientID, q.codeChallenge, q.uiLocales, q.nonce, q.redirectUri, sessionID)
  }

  // ---------------------------------------------------------- code grant

  datatype Assertion = MissingAssertion | InvalidAssertion | ValidAssertion

  datatype CodeForm = CodeForm(code: string, clientID: string, assertion: Assertion, redirectUri: string, codeVerifier: string)

  datatype IDToken = IDToken(
    issuer: string, audience: string, nonce: string, acr: string, sid: Option<string>, jti: string,
    issuedAt: Time, expiresAt: Time)

  datatype Tokens = Tokens(accessToken: string, idToken: IDToken, refreshToken: string, expiresIn: int)

  // iat is truncated to whole seconds.
  function WholeSeconds(t: Time): Time {
    (t / SECOND) * SECOND
  }

  function AuthenticationError(clientID: string, assertion: Assertion, expected: string): Option<Status> {
    if |clientID| == 0 || clientID != expected || assertion.MissingAssertion? then Some(BadRequest)
    else if assertion.InvalidAssertion? then Some(Unauthorized)
    else None
  }

  // The first refresh token of a code, and the ones that replace it.
  function CodeToken(code: string): string {
    code + "some-refresh-token"
  }

  function RotatedToken(uuid: string): string {
    uuid + "some-new-refresh-token"
  }

  /** Why a code grant is refused, if it is. */
  function CodeGrantError(challenge: string -> string, codes: map<string, AuthorizeRequest>, f: CodeForm): Option<Status> {
    if |f.code| == 0 then Some(BadRequest)
    else if f.code !in codes then Some(ServerError)
    else
      var auth := codes[f.code];
      var unauthenticated := AuthenticationError(f.clientID, f.assertion, auth.clientID);
      if unauthenticated.Some? then unauthenticated
      else if |f.redirectUri| == 0 || |auth.redirectUri| == 0 || auth.redirectUri != f.redirectUri then Some(BadRequest)
      else if |f.codeVerifier| == 0 || challenge(f.codeVerifier) != auth.codeChallenge then Some(BadRequest)
      else None
  }

  function TokensFor(cfg: ProviderConfig, auth: AuthorizeRequest, code: string, now: Time, accessToken: string, jti: string): Tokens {
    var iat := WholeSeconds(now);
    Tokens(accessToken,
           IDToken(cfg.issuer, auth.clientID, auth.nonce, auth.acrLevel,
                   if cfg.sidClaimRequired then Some(auth.sessionID) else None, jti, iat, iat + cfg.tokenDuration),
           CodeToken(code),
           cfg.tokenDuration / SECOND)
  }

  /** The id_token says who asked, of whom, for which login; and is issued at the last whole second. */
  predicate IsIDTokenFor(t: IDToken, cfg: ProviderConfig, auth: AuthorizeRequest, now: Time, jti: string) {
    && t.issuer == cfg.issuer && t.audience == auth.clientID && t.nonce == auth.nonce && t.acr == auth.acrLevel
    && t.jti == jti && t.sid == (if cfg.sidClaimRequired then Some(auth.sessionID) else None)
    && t.issuedAt <= now < t.issuedAt + SECOND && t.issuedAt % SECOND == 0
    && t.expiresAt == t.issuedAt + cfg.tokenDuration
  }

  // ------------------------------------------------------- refresh grant

  datatype RefreshForm = RefreshForm(refreshToken: string, clientID: string, assertion: Assertion)

  function RefreshGrantError(live: map<string, RefreshTokenData>, f: RefreshForm): Option<Status> {
    if |f.refreshToken| == 0 then Some(BadRequest)
    else if f.refreshToken !in live then Some(ServerError)
    else AuthenticationError(f.clientID, f.assertion, live[f.refreshToken].clientID)
  }

  /** The used token goes, the issued one takes over its grant. */
  function Rotate(live: map<string, RefreshTokenData>, used: string, issued: string): map<string, RefreshTokenData>
    requires used in live
  {
    (live - {used})[issued := live[used].(refreshToken := issued)]
  }

  // --------------------------------------------------------------- calls

  // Requests to the provider, with the random values it draws for them.
  datatype Call =
    | AuthorizeCall(query: AuthorizeQuery, sessionID: string, code: string)
    | CodeCall(codeForm: CodeForm)
    | RefreshCall(refreshForm: RefreshForm, uuid: string)

  predicate Accepts(challenge: string -> string, s: State, c: Call) {
    match c
    case AuthorizeCall(q, _, _) => ValidQuery(q)
    case CodeCall(f) => CodeGrantError(challenge, s.codes, f).None?
    case RefreshCall(f, _) => RefreshGrantError(s.refreshTokens, f).None?
  }

  function GrantOf(codes: map<string, AuthorizeRequest>, code: string): RefreshTokenData
    requires code in codes
  {
    RefreshTokenData(codes[code].clientID, CodeToken(code), codes[code].sessionID)
  }

  /** What a request does to the provider's tables; one that is refused does nothing. */
  function AfterCall(challenge: string -> string, s: State, c: Call): State {
    if !Accepts(challenge, s, c) then s
    else
      match c
      case AuthorizeCall(q, sessionID, code) =>
        s.(codes := s.codes[code := RequestOf(q, sessionID)], sessions := s.sessions[sessionID := q.clientID])
      case CodeCall(f) =>
        s.(refreshTokens := s.refreshTokens[CodeToken(f.code) := GrantOf(s.codes, f.code)])
      case RefreshCall(f, uuid) =>
        s.(refreshTokens := Rotate(s.refreshTokens, f.refreshToken, RotatedToken(uuid)))
  }

  // ---------------------------------------------------------------- laws

  /** A refresh token is good for one use; its grant lives on under the new token, and no other grant is touched. */
  lemma RotationIsSingleUse(live: map<string, RefreshTokenData>, f: RefreshForm, issued: string)
    requires RefreshGrantError(live, f).None? && issued !in live
    ensures var after := Rotate(live, f.refreshToken, issued);
      && RefreshGrantError(after, f) == Some(ServerError)
      && after.Keys == live.Keys - {f.refreshToken} + {issued}
      && |after| == |live|
      && RefreshGrantError(after, f.(refreshToken := issued)) == (if |issued| == 0 then Some(BadRequest) else None)
      && after[issued].sessionID == live[f.refreshToken].sessionID
      && (forall t :: t in live && t != f.refreshToken ==> t in after && after[t] == live[t])
  {
    var after := Rotate(live, f.refreshToken, issued);
    assert after.Keys == live.Keys - {f.refreshToken} + {issued};
    assert |after.Keys| == |live.Keys|;
  }

  /** What a code grant asks for, in any order. */
  lemma CodeGrantSucceedsIff(challenge: string -> string, codes: map<string, AuthorizeRequest>, f: CodeForm)
    ensures CodeGrantError(challenge, codes, f).None? <==>
            && f.code in codes && |f.code| > 0
            && f.clientID == codes[f.code].clientID && |f.clientID| > 0 && f.assertion.ValidAssertion?
            && f.redirectUri == codes[f.code].redirectUri && |f.redirectUri| > 0
            && challenge(f.codeVerifier) == codes[f.code].codeChallenge && |f.codeVerifier| > 0
    ensures CodeGrantError(challenge, codes, f) == Some(ServerError) <==> |f.code| > 0 && f.code !in codes
    ensures CodeGrantError(challenge, codes, f) == Some(Unauthorized) <==>
            && f.code in codes && |f.code| > 0
            && f.clientID == codes[f.code].clientID && |f.clientID| > 0 && f.assertion.InvalidAssertion?
  {
  }

  /** What a refresh grant asks for. */
  lemma RefreshGrantSucceedsIff(live: map<string, RefreshTokenData>, f: RefreshForm)
    ensures RefreshGrantError(live, f).None? <==>
            && f.refreshToken in live && |f.refreshToken| > 0
            && f.clientID == live[f.refreshToken].clientID && |f.clientID| > 0 && f.assertion.ValidAssertion?
    ensures RefreshGrantError(live, f) == Some(ServerError) <==> |f.refreshToken| > 0 && f.refreshToken !in live
    ensures RefreshGrantError(live, f) == Some(Unauthorized) <==>
            && f.refreshToken in live && |f.refreshToken| > 0
            && f.clientID == live[f.refreshToken].clientID && |f.clientID| > 0 && f.assertion.InvalidAssertion?
  {
  }

  lemma CodeTokenInjective(a: string, b: string)
    requires CodeToken(a) == CodeToken(b)
    ensures a == b
  {
    assert a == CodeToken(a)[..|a|] && b == CodeToken(b)[..|b|];
  }

  /** First tokens and replacements never coincide, whatever codes and UUIDs are. */
  lemma CodeTokenNotRotated(code: string, uuid: string)
    ensures CodeToken(code) != RotatedToken(uuid)
  {
    var s, t := CodeToken(code), RotatedToken(uuid);
    assert s[|s| - 15] == 'e';
    assert t[|t| - 15] == 'w';
  }

  lemma RotatedTokenInjective(a: string, b: string)
    requires RotatedToken(a) == RotatedToken(b)
    ensures a == b
  {
    assert a == RotatedToken(a)[..|a|] && b == RotatedToken(b)[..|b|];
  }

  /**
    Codes are not single-use here: a code that has been redeemed can be redeemed
    again, and that puts its first refresh token back, even after its use.
   */
  lemma CodeReplayRevivesToken(challenge: string -> string, s: State, f: CodeForm, uuid: string)
    requires CodeGrantError(challenge, s.codes, f).None?
    ensures var refresh := RefreshForm(CodeToken(f.code), f.clientID, ValidAssertion);
      var redeemed := AfterCall(challenge, s, CodeCall(f));
      var refreshed := AfterCall(challenge, redeemed, RefreshCall(refresh, uuid));
      var replayed := AfterCall(challenge, refreshed, CodeCall(f));
      && RefreshGrantError(redeemed.refreshTokens, refresh).None?
      && RefreshGrantError(refreshed.refreshTokens, refresh) == Some(ServerError)
      && RefreshGrantError(replayed.refreshTokens, refresh).None?
  {
    CodeTokenNotRotated(f.code, uuid);
  }

  // ------------------------------------------------------------- objects

  /** The handler with its three tables. */
  class IdentityProvider {
    const cfg: ProviderConfig
    const reliable: bool  // every request reaches the provider, and its answer arrives
    var codes: map<string, AuthorizeRequest>
    var sessions: map<string, string>
    var refreshTokens: map<string, RefreshTokenData>

    function Value(): State
      reads this
    {
      State(codes, sessions, refreshTokens)
    }

    constructor (cfg: ProviderConfig, reliable: bool)
      ensures this.cfg == cfg && this.reliable == reliable && Value() == State(map[], map[], map[])
    {
      this.cfg, this.reliable := cfg, reliable;
      codes, sessions, refreshTokens := map[], map[], map[];
    }

    /**
      The redirect URI is parsed only after the code has been registered, so a
      refusal for that reason leaves a code behind.
     */
    method Authorize(q: AuthorizeQuery, sessionID: string, code: string, redirectParses: bool)
      returns (r: Result<string, Status>)
      modifies this
      ensures forall challenge ::
                Value() == AfterCall(challenge, old(Value()), AuthorizeCall(q, sessionID, code))
      ensures Value() == (if ValidQuery(q)
                          then State(old(codes)[code := RequestOf(q, sessionID)], old(sessions)[sessionID := q.clientID], old(refreshTokens))
                          else old(Value()))
      ensures r == if ValidQuery(q) && redirectParses then Ok(code) else Err(BadRequest)
      ensures r.Ok? <==>
                && redirectParses && q.state != "" && q.nonce != "" && q.redirectUri != "" && q.clientID != ""
                && q.codeChallenge != "" && q.codeChallengeMethod == "S256" && q.responseType == "code"
                && q.responseMode == "query" && q.acrValues in {"", "Level3", "Level4"}
                && q.uiLocales in {"", "nb", "nn", "en", "se"} && "openid" in q.scopes
      ensures r.Ok? ==>
                && r.value in codes && sessionID in sessions && sessions[sessionID] == q.clientID
                && codes[r.value] == AuthorizeRequest(q.acrValues, q.clientID, q.codeChallenge, q.uiLocales, q.nonce, q.redirectUri, sessionID)
    {
      if !ValidQuery(q) {
        return Err(BadRequest);
      }
      sessions := sessions[sessionID := q.clientID];
      codes := codes[code := RequestOf(q, sessionID)];
      r := if redirectParses then Ok(code) else Err(BadRequest);
    }

    method TokenCodeGrant(challenge: string -> string, f: CodeForm, now: Time, accessToken: string, jti: string)
      returns (r: Result<Tokens, Status>)
      modifies this`refreshTokens
      ensures Value() == AfterCall(challenge, old(Value()), CodeCall(f))
      ensures r.Err? <==> CodeGrantError(challenge, codes, f).Some?
      ensures r.Err? ==> Some(r.error) == CodeGrantError(challenge, codes, f) && refreshTokens == old(refreshTokens)
      ensures r.Ok? ==>
                && f.code in codes
                && r.value == TokensFor(cfg, codes[f.code], f.code, now, accessToken, jti)
                && r.value.accessToken == accessToken && r.value.refreshToken == f.code + "some-refresh-token"
                && r.value.expiresIn * SECOND <= cfg.tokenDuration < (r.value.expiresIn + 1) * SECOND
                && IsIDTokenFor(r.value.idToken, cfg, codes[f.code], now, jti)
                && refreshTokens == old(refreshTokens)[CodeToken(f.code) :=
                     RefreshTokenData(codes[f.code].clientID, CodeToken(f.code), codes[f.code].sessionID)]
    {
      var refused := CodeGrantError(challenge, codes, f);
      if refused.Some? {
        return Err(refused.value);
      }
      var auth := codes[f.code];
      var tokens := TokensFor(cfg, auth, f.code, now, accessToken, jti);
      refreshTokens := refreshTokens[tokens.refreshToken := RefreshTokenData(auth.clientID, tokens.refreshToken, auth.sessionID)];
      r := Ok(tokens);
    }

    method RefreshTokenGrant(f: RefreshForm, accessToken: string, uuid: string)
      returns (r: Result<(string, string, int), Status>)
      modifies this`refreshTokens
      ensures forall challenge :: Value() == AfterCall(challenge, old(Value()), RefreshCall(f, uuid))
      ensures r.Err? <==> RefreshGrantError(old(refreshTokens), f).Some?
      ensures r.Err? ==> Some(r.error) == RefreshGrantError(old(refreshTokens), f) && refreshTokens == old(refreshTokens)
      ensures r.Ok? ==>
                && refreshTokens == Rotate(old(refreshTokens), f.refreshToken, RotatedToken(uuid))
                && r.value == (accessToken, RotatedToken(uuid), cfg.tokenDuration / SECOND)
    {
      var refused := RefreshGrantError(refreshTokens, f);
      if refused.Some? {
        return Err(refused.value);
      }
      var data := refreshTokens[f.refreshToken];
      refreshTokens := refreshTokens - {f.refreshToken};
      var issued := RotatedToken(uuid);
      refreshTokens := refreshTokens[issued := data.(refreshToken := issued)];
      r := Ok((accessToken, issued, cfg.tokenDuration / SECOND));
    }
  }
}
