/**
  The login flow: authorization URLs and login cookies
  (pkg/openid/client/login.go), the callback's checks
  (pkg/openid/client/login_callback.go,
  pkg/handler/api/logincallback/logincallback.go), and any number of logins
  interleaved with each other and with authorization requests from anyone.
 */
module LoginFlow {
  import opened SessionTime
  import opened Wrappers
  import opened Provider

  // AcceptableClockSkew
  const SKEW: int := 5 * SECOND

  datatype Client = Client(
    clientID: string, issuer: string, scopes: seq<string>, sidClaimRequired: bool,
    acrValues: string, acrSupported: seq<string>, uiLocales: string, localesSupported: seq<string>)

  datatype LoginCookie = LoginCookie(state: string, nonce: string, codeVerifier: string, referer: string, redirectURI: string)

  datatype Login = Login(query: AuthorizeQuery, cookie: LoginCookie)

  datatype LoginError = InvalidSecurityLevel | InvalidLocale

  // The random values of one login.
  datatype Secrets = Secrets(codeVerifier: string, nonce: string, state: string)

  // ---------------------------------------------------------- logging in

  // What a login asks for: the request's parameter if it has one, and the configured default otherwise.
  function Wanted(requested: string, fallback: string): string {
    if requested != "" then requested else fallback
  }

  /** withParamMapping: nothing is sent when no default is configured. */
  function ParamValue(requested: string, fallback: string, supported: seq<string>): Option<string> {
    if |fallback| == 0 then Some("")
    else
      var value := if |requested| == 0 then fallback else requested;
      if value in supported then Some(value) else None
  }

  function NewLogin(challenge: string -> string, c: Client, secrets: Secrets, level: string, locale: string,
                    callbackURL: string, referer: string): (r: Result<Login, LoginError>)
    ensures r == Err(InvalidSecurityLevel) <==> c.acrValues != "" && Wanted(level, c.acrValues) !in c.acrSupported
    ensures r == Err(InvalidLocale) <==>
            && r != Err(InvalidSecurityLevel)
            && c.uiLocales != "" && Wanted(locale, c.uiLocales) !in c.localesSupported
    ensures r.Ok? ==>
              var q, cookie := r.value.query, r.value.cookie;
              && q.acrValues == (if c.acrValues == "" then "" else Wanted(level, c.acrValues))
              && q.uiLocales == (if c.uiLocales == "" then "" else Wanted(locale, c.uiLocales))
              && q.state == cookie.state == secrets.state && q.nonce == cookie.nonce == secrets.nonce
              && q.codeChallenge == challenge(secrets.codeVerifier) && q.codeChallengeMethod == "S256"
              && cookie.codeVerifier == secrets.codeVerifier && cookie.referer == referer
              && q.redirectUri == cookie.redirectURI == callbackURL
              && q.responseMode == "query" && q.responseType == "code"
              && q.clientID == c.clientID && q.scopes == c.scopes
  {
    var acr := ParamValue(level, c.acrValues, c.acrSupported);
    var ui := ParamValue(locale, c.uiLocales, c.localesSupported);
    if acr.None? then Err(InvalidSecurityLevel)
    else if ui.None? then Err(InvalidLocale)
    else
      Ok(Login(
        AuthorizeQuery(secrets.state, callbackURL, secrets.nonce, "query", "code", c.clientID, c.scopes,
                       challenge(secrets.codeVerifier), "S256", acr.value, ui.value),
        LoginCookie(secrets.state, secrets.nonce, secrets.codeVerifier, referer, callbackURL)))
  }

  // -------------------------------------------------------- the callback

  datatype CallbackParams = CallbackParams(error: string, state: string, code: string)

  datatype CallbackError = ProviderError | StateMismatch | GrantRefused(status: Status) | InvalidIDToken

  // A cookie of an older version has no redirect URI.
  function Completed(cookie: LoginCookie, callbackURL: string): LoginCookie {
    if |cookie.redirectURI| == 0 then cookie.(redirectURI := callbackURL) else cookie
  }

  predicate StateMismatches(cookie: LoginCookie, params: CallbackParams) {
    |params.state| == 0 || cookie.state != params.state
  }

  predicate ValidIDToken(c: Client, t: IDToken, nonce: string, now: Time) {
    && t.audience == c.clientID && t.nonce == nonce && t.issuer == c.issuer
    && (c.sidClaimRequired ==> t.sid.Some?)
    && t.issuedAt <= now + SKEW && now < t.expiresAt + SKEW
  }

  function FormFor(c: Client, cookie: LoginCookie, code: string): CodeForm {
    CodeForm(code, c.clientID, ValidAssertion, cookie.redirectURI, cookie.codeVerifier)
  }

  // The client and the provider, and the S256 transformation they share.
  datatype Parties = Parties(client: Client, provider: ProviderConfig)

  // One attempt at redeeming a code: granted at one time, validated at a later one.
  datatype Attempt = Attempt(granted: Time, validated: Time, accessToken: string, jti: string)

  function RedeemedTokens(challenge: string -> string, ps: Parties, codes: map<string, AuthorizeRequest>,
                          cookie: LoginCookie, code: string, a: Attempt): Result<Tokens, CallbackError>
  {
    var f := FormFor(ps.client, cookie, code);
    var refused := CodeGrantError(challenge, codes, f);
    if refused.Some? then Err(GrantRefused(refused.value))
    else
      var tokens := TokensFor(ps.provider, codes[code], code, a.granted, a.accessToken, a.jti);
      if ValidIDToken(ps.client, tokens.idToken, cookie.nonce, a.validated) then Ok(tokens) else Err(InvalidIDToken)
  }

  /** The checks of the callback handler, in its order. */
  function CallbackOutcome(challenge: string -> string, ps: Parties, codes: map<string, AuthorizeRequest>,
                           cookie: LoginCookie, params: CallbackParams, a: Attempt): Result<Tokens, CallbackError>
  {
    if params.error != "" then Err(ProviderError)
    else if StateMismatches(cookie, params) then Err(StateMismatch)
    else RedeemedTokens(challenge, ps, codes, cookie, params.code, a)
  }

  /**
    What a callback asks for, of the cookie, the request, the code and the two
    configurations: PKCE, redirect URI, client, state and nonce are the
    cookie's, and the id_token is neither from the future nor expired, give
    or take the skew.
   */
  lemma CallbackAcceptedIff(challenge: string -> string, ps: Parties, codes: map<string, AuthorizeRequest>,
                            cookie: LoginCookie, params: CallbackParams, a: Attempt)
    ensures CallbackOutcome(challenge, ps, codes, cookie, params, a).Ok? <==>
            && params.error == "" && params.state != "" && params.state == cookie.state
            && params.code != "" && params.code in codes
            && var auth := codes[params.code];
            && ps.client.clientID != "" && ps.client.clientID == auth.clientID
            && cookie.redirectURI != "" && cookie.redirectURI == auth.redirectUri
            && cookie.codeVerifier != "" && challenge(cookie.codeVerifier) == auth.codeChallenge
            && cookie.nonce == auth.nonce && ps.client.issuer == ps.provider.issuer
            && (ps.client.sidClaimRequired ==> ps.provider.sidClaimRequired)
            && WholeSeconds(a.granted) <= a.validated + 5 * SECOND
            && a.validated < WholeSeconds(a.granted) + ps.provider.tokenDuration + 5 * SECOND
    ensures CallbackOutcome(challenge, ps, codes, cookie, params, a) == Err(StateMismatch) <==>
            params.error == "" && (params.state == "" || params.state != cookie.state)
    ensures CallbackOutcome(challenge, ps, codes, cookie, params, a) == Err(GrantRefused(ServerError)) <==>
            && params.error == "" && params.state != "" && params.state == cookie.state
            && params.code != "" && params.code !in codes
  {
  }

  // ------------------------------------------------------- many logins

  // A session that a callback has created.
  datatype Created = Created(login: nat, cookie: LoginCookie, params: CallbackParams, tokens: Tokens, validated: Time)

  datatype World = World(logins: map<nat, Login>, codes: map<string, AuthorizeRequest>, sessions: seq<Created>)

  datatype Event =
    | Begin(l: nat, secrets: Secrets, level: string, locale: string, callbackURL: string, referer: string, legacy: bool)
    | Authorize(query: AuthorizeQuery, sessionID: string, code: string)
    | Callback(l: nat, callbackURL: string, params: CallbackParams, attempt: Attempt)

  const INIT: World := World(map[], map[], [])

  // Random values are never empty and never repeat.
  ghost predicate FreshSecrets(w: World, secrets: Secrets) {
    && |secrets.codeVerifier| > 0 && |secrets.nonce| > 0 && |secrets.state| > 0
    && forall l :: l in w.logins ==>
         w.logins[l].cookie.codeVerifier != secrets.codeVerifier && w.logins[l].cookie.state != secrets.state
  }

  ghost predicate Enabled(challenge: string -> string, ps: Parties, w: World, e: Event) {
    match e
    case Begin(l, secrets, level, locale, callbackURL, referer, _) =>
      && l !in w.logins && FreshSecrets(w, secrets) && |callbackURL| > 0
      && NewLogin(challenge, ps.client, secrets, level, locale, callbackURL, referer).Ok?
    case Authorize(q, _, code) => ValidQuery(q) && code !in w.codes && |code| > 0
    case Callback(l, _, _, a) => l in w.logins && a.granted <= a.validated
  }

  ghost function Next(challenge: string -> string, ps: Parties, w: World, e: Event): World
    requires Enabled(challenge, ps, w, e)
  {
    match e
    case Begin(l, secrets, level, locale, callbackURL, referer, legacy) =>
      var login := NewLogin(challenge, ps.client, secrets, level, locale, callbackURL, referer).value;
      w.(logins := w.logins[l := if legacy then login.(cookie := login.cookie.(redirectURI := "")) else login])
    case Authorize(q, sessionID, code) => w.(codes := w.codes[code := RequestOf(q, sessionID)])
    case Callback(l, callbackURL, params, a) =>
      var cookie := Completed(w.logins[l].cookie, callbackURL);
      var outcome := CallbackOutcome(challenge, ps, w.codes, cookie, params, a);
      if outcome.Ok? then w.(sessions := w.sessions + [Created(l, cookie, params, outcome.value, a.validated)]) else w
  }

  ghost function Run(challenge: string -> string, ps: Parties, es: seq<Event>): Option<World> {
    if es == [] then Some(INIT)
    else
      var before, e := Run(challenge, ps, es[..|es| - 1]), es[|es| - 1];
      if before.Some? && Enabled(challenge, ps, before.value, e) then Some(Next(challenge, ps, before.value, e)) else None
  }

  // -------------------------------------------------------------- safety

  /** The code of a created session was issued for the cookie of the login that created it. */
  ghost predicate Bound(challenge: string -> string, ps: Parties, w: World, s: Created) {
    && s.login in w.logins
    && s.cookie.state == w.logins[s.login].cookie.state
    && s.cookie.nonce == w.logins[s.login].cookie.nonce
    && s.cookie.codeVerifier == w.logins[s.login].cookie.codeVerifier
    && s.params.state == s.cookie.state && |s.params.state| > 0 && s.params.error == ""
    && s.params.code in w.codes
    && var auth := w.codes[s.params.code];
    && auth.clientID == ps.client.clientID
    && auth.redirectUri == s.cookie.redirectURI
    && auth.nonce == s.cookie.nonce
    && auth.codeChallenge == challenge(s.cookie.codeVerifier)
    && s.tokens.idToken.nonce == s.cookie.nonce
    && s.tokens.idToken.audience == ps.client.clientID && s.tokens.idToken.issuer == ps.client.issuer
    && s.tokens.idToken.acr == auth.acrLevel
    && s.validated < s.tokens.idToken.expiresAt + SKEW
    && s.tokens.refreshToken == CodeToken(s.params.code)
    && (ps.provider.sidClaimRequired ==> s.tokens.idToken.sid == Some(auth.sessionID))
  }

  ghost predicate LoginInv(challenge: string -> string, ps: Parties, w: World) {
    && (forall i :: 0 <= i < |w.sessions| ==> Bound(challenge, ps, w, w.sessions[i]))
    && (forall code :: code in w.codes ==>
          |w.codes[code].codeChallenge| > 0 && |w.codes[code].nonce| > 0 && |w.codes[code].redirectUri| > 0)
    && (forall l, l' :: l in w.logins && l' in w.logins && l != l' ==>
          w.logins[l].cookie.codeVerifier != w.logins[l'].cookie.codeVerifier
          && w.logins[l].cookie.state != w.logins[l'].cookie.state)
  }

  lemma CallbackIsBound(challenge: string -> string, ps: Parties, w: World, e: Event)
    requires e.Callback? && Enabled(challenge, ps, w, e)
    requires var cookie := Completed(w.logins[e.l].cookie, e.callbackURL);
      CallbackOutcome(challenge, ps, w.codes, cookie, e.params, e.attempt).Ok?
    ensures var cookie := Completed(w.logins[e.l].cookie, e.callbackURL);
      Bound(challenge, ps, w,
            Created(e.l, cookie, e.params, CallbackOutcome(challenge, ps, w.codes, cookie, e.params, e.attempt).value,
                    e.attempt.validated))
  {
  }

  lemma BoundStays(challenge: string -> string, ps: Parties, w: World, e: Event, s: Created)
    requires Enabled(challenge, ps, w, e) && Bound(challenge, ps, w, s)
    ensures Bound(challenge, ps, Next(challenge, ps, w, e), s)
  {
  }

  lemma {:induction false} LoginInvAlways(challenge: string -> string, ps: Parties, es: seq<Event>)
    requires Run(challenge, ps, es).Some?
    ensures LoginInv(challenge, ps, Run(challenge, ps, es).value)
  {
    if es != [] {
      var es0, e := es[..|es| - 1], es[|es| - 1];
      LoginInvAlways(challenge, ps, es0);
      var w := Run(challenge, ps, es0).value;
      var w' := Next(challenge, ps, w, e);
      forall i | 0 <= i < |w'.sessions| ensures Bound(challenge, ps, w', w'.sessions[i]) {
        if i < |w.sessions| {
          assert w'.sessions[i] == w.sessions[i];
          BoundStays(challenge, ps, w, e, w.sessions[i]);
        } else {
          CallbackIsBound(challenge, ps, w, e);
        }
      }
    }
  }

  /** Login safety, in every interleaving. */
  lemma LoginSafety(challenge: string -> string, ps: Parties, es: seq<Event>, i: nat)
    requires Run(challenge, ps, es).Some? && i < |Run(challenge, ps, es).value.sessions|
    ensures Bound(challenge, ps, Run(challenge, ps, es).value, Run(challenge, ps, es).value.sessions[i])
  {
    LoginInvAlways(challenge, ps, es);
  }

  /** With an injective challenge, a code never creates sessions for two different logins. */
  lemma CodesServeOneLogin(challenge: string -> string, ps: Parties, es: seq<Event>, i: nat, j: nat)
    requires forall v, v' :: challenge(v) == challenge(v') ==> v == v'
    requires Run(challenge, ps, es).Some?
    requires var w := Run(challenge, ps, es).value;
      i < |w.sessions| && j < |w.sessions| && w.sessions[i].params.code == w.sessions[j].params.code
    ensures var w := Run(challenge, ps, es).value; w.sessions[i].login == w.sessions[j].login
  {
    LoginInvAlways(challenge, ps, es);
    var w := Run(challenge, ps, es).value;
    assert Bound(challenge, ps, w, w.sessions[i]) && Bound(challenge, ps, w, w.sessions[j]);
    assert w.sessions[i].cookie.codeVerifier == w.sessions[j].cookie.codeVerifier;
  }

  // -------------------------------------------------------- completeness

  // What is known of a login from the way it was made.
  ghost predicate OwnLogin(challenge: string -> string, ps: Parties, login: Login) {
    var q, c := login.query, login.cookie;
    && q.state == c.state && |c.state| > 0
    && q.nonce == c.nonce
    && q.clientID == ps.client.clientID && q.scopes == ps.client.scopes
    && (if ps.client.acrValues == "" then q.acrValues == "" else q.acrValues in ps.client.acrSupported)
    && (if ps.client.uiLocales == "" then q.uiLocales == "" else q.uiLocales in ps.client.localesSupported)
    && q.codeChallenge == challenge(c.codeVerifier) && |c.codeVerifier| > 0
    && |q.redirectUri| > 0 && (c.redirectURI == q.redirectUri || c.redirectURI == "")
  }

  lemma {:induction false} OwnLoginAlways(challenge: string -> string, ps: Parties, es: seq<Event>, l: nat)
    requires Run(challenge, ps, es).Some? && l in Run(challenge, ps, es).value.logins
    ensures OwnLogin(challenge, ps, Run(challenge, ps, es).value.logins[l])
  {
    var es0, e := es[..|es| - 1], es[|es| - 1];
    var w := Run(challenge, ps, es0).value;
    if l in w.logins && !(e.Begin? && e.l == l) {
      OwnLoginAlways(challenge, ps, es0, l);
    }
  }

  // Codes and logins stay what they are.
  lemma {:induction false} LoginsAndCodesStay(challenge: string -> string, ps: Parties, es: seq<Event>, n: nat, l: nat, code: string)
    requires n <= |es| && Run(challenge, ps, es).Some?
    ensures Run(challenge, ps, es[..n]).Some?
    ensures var w0, w := Run(challenge, ps, es[..n]).value, Run(challenge, ps, es).value;
      && (l in w0.logins ==> l in w.logins && w.logins[l] == w0.logins[l])
      && (code in w0.codes ==> code in w.codes && w.codes[code] == w0.codes[code])
  {
    if n == |es| {
      assert es[..n] == es;
    } else {
      assert es[..|es| - 1][..n] == es[..n];
      LoginsAndCodesStay(challenge, ps, es[..|es| - 1], n, l, code);
    }
  }

  // The callback of this login with this code yields the tokens that the login has asked for.
  ghost predicate IsAccepted(challenge: string -> string, ps: Parties, codes: map<string, AuthorizeRequest>, login: Login,
                             code: string, sessionID: string, a: Attempt)
  {
    var outcome := CallbackOutcome(challenge, ps, codes, Completed(login.cookie, login.query.redirectUri),
                                   CallbackParams("", login.query.state, code), a);
    && outcome.Ok?
    && outcome.value.accessToken == a.accessToken && outcome.value.refreshToken == CodeToken(code)
    && outcome.value.idToken.nonce == login.cookie.nonce
    && outcome.value.idToken.acr == login.query.acrValues
    && outcome.value.idToken.sid == (if ps.provider.sidClaimRequired then Some(sessionID) else None)
    && code in codes && IsIDTokenFor(outcome.value.idToken, ps.provider, codes[code], a.granted, a.jti)
  }

  lemma OwnCodeIsAccepted(challenge: string -> string, ps: Parties, codes: map<string, AuthorizeRequest>, login: Login,
                          code: string, sessionID: string, a: Attempt)
    requires ps.provider.issuer == ps.client.issuer && ps.client.sidClaimRequired == ps.provider.sidClaimRequired
    requires OwnLogin(challenge, ps, login) && ValidQuery(login.query) && |code| > 0
    requires code in codes && codes[code] == RequestOf(login.query, sessionID)
    requires a.granted <= a.validated < WholeSeconds(a.granted) + ps.provider.tokenDuration + SKEW
    ensures IsAccepted(challenge, ps, codes, login, code, sessionID, a)
  {
  }

  /**
    Login completeness: whatever happens in between, a code issued for a
    login's own authorization URL is accepted with that login's cookie and
    state, as long as the id_token has not expired when it is validated.
   */
  lemma LoginCompleteness(challenge: string -> string, ps: Parties, es: seq<Event>, n: nat, l: nat, code: string,
                          sessionID: string, a: Attempt)
    requires ps.provider.issuer == ps.client.issuer && ps.client.sidClaimRequired == ps.provider.sidClaimRequired
    requires n < |es| && Run(challenge, ps, es).Some?
    requires var w0 := Run(challenge, ps, es[..n]);
      w0.Some? && l in w0.value.logins && es[n] == Authorize(w0.value.logins[l].query, sessionID, code)
    requires a.granted <= a.validated < WholeSeconds(a.granted) + ps.provider.tokenDuration + SKEW
    ensures var w := Run(challenge, ps, es).value;
      l in w.logins && IsAccepted(challenge, ps, w.codes, w.logins[l], code, sessionID, a)
  {
    LoginsAndCodesStay(challenge, ps, es, n + 1, l, code);
    assert es[..n + 1][..n] == es[..n];
    OwnLoginAlways(challenge, ps, es, l);
    LoginsAndCodesStay(challenge, ps, es, n, l, code);
    var w := Run(challenge, ps, es).value;
    OwnCodeIsAccepted(challenge, ps, w.codes, w.logins[l], code, sessionID, a);
  }

  /**
    The authorization endpoint takes a login's own URL exactly when nothing in
    it is empty, the configured scopes include `openid`, and the mapped
    parameters are among the values the provider knows.
   */
  lemma OwnQueryAcceptedIff(challenge: string -> string, c: Client, secrets: Secrets, level: string, locale: string,
                            callbackURL: string, referer: string)
    requires NewLogin(challenge, c, secrets, level, locale, callbackURL, referer).Ok?
    ensures ValidQuery(NewLogin(challenge, c, secrets, level, locale, callbackURL, referer).value.query) <==>
            && secrets.nonce != "" && secrets.state != "" && callbackURL != "" && c.clientID != ""
            && challenge(secrets.codeVerifier) != "" && "openid" in c.scopes
            && (c.acrValues != "" ==> Wanted(level, c.acrValues) in {"Level3", "Level4"})
            && (c.uiLocales != "" ==> Wanted(locale, c.uiLocales) in {"nb", "nn", "en", "se"})
  {
  }

  // ------------------------------------------------------------- objects

  /** The cookie as the callback holds it. */
  class LoginCookieRecord {
    var state: string
    var nonce: string
    var codeVerifier: string
    var referer: string
    var redirectURI: string

    function Value(): LoginCookie
      reads this
    {
      LoginCookie(state, nonce, codeVerifier, referer, redirectURI)
    }

    constructor (c: LoginCookie)
      ensures Value() == c
    {
      state, nonce, codeVerifier, referer, redirectURI := c.state, c.nonce, c.codeVerifier, c.referer, c.redirectURI;
    }
  }

  class LoginCallback {
    const client: Client
    const provider: IdentityProvider
    const cookie: LoginCookieRecord
    const params: CallbackParams
    const clock: Clock

    ghost function Peers(): Parties {
      Parties(client, provider.cfg)
    }

    // The provider after a grant of the code.
    function Redeemed(challenge: string -> string, s: State): State
      reads cookie
    {
      AfterCall(challenge, s, CodeCall(FormFor(client, cookie.Value(), params.code)))
    }

    // Fills in the redirect URI of the cookie it is given.
    constructor (client: Client, provider: IdentityProvider, cookie: LoginCookieRecord, params: CallbackParams,
                 callbackURL: string, clock: Clock)
      modifies cookie
      ensures this.client == client && this.provider == provider && this.cookie == cookie && this.params == params
      ensures this.clock == clock
      ensures cookie.Value() == Completed(old(cookie.Value()), callbackURL)
    {
      this.client, this.provider, this.cookie, this.params, this.clock := client, provider, cookie, params, clock;
      new;
      if |cookie.redirectURI| == 0 {
        cookie.redirectURI := callbackURL;
      }
    }

    /** One attempt; the request, or the answer to it, can get lost. */
    method RedeemTokens(challenge: string -> string, accessToken: string, jti: string)
      returns (r: Option<Result<Tokens, CallbackError>>, a: Attempt)
      modifies provider`refreshTokens, clock
      ensures a.granted <= a.validated && a.accessToken == accessToken && a.jti == jti
      ensures old(clock.now) <= a.granted && a.validated <= clock.now
      ensures r.Some? ==>
                r.value == RedeemedTokens(challenge, Peers(), provider.codes, cookie.Value(), params.code, a)
      ensures provider.reliable ==> r.Some?
      ensures || provider.Value() == Redeemed(challenge, old(provider.Value()))
              || (r.None? && !provider.reliable && provider.Value() == old(provider.Value()))
    {
      var granted := clock.Now();
      var reached, arrives: bool := *, *;
      if !reached && !provider.reliable {
        return None, Attempt(granted, granted, accessToken, jti);
      }
      var form := FormFor(client, cookie.Value(), params.code);
      var answer := provider.TokenCodeGrant(challenge, form, granted, accessToken, jti);
      var validated := clock.Now();
      a := Attempt(granted, validated, accessToken, jti);
      if !arrives && !provider.reliable {
        return None, a;
      }
      match answer
      case Err(status) => r := Some(Err(GrantRefused(status)));
      case Ok(tokens) =>
        if ValidIDToken(client, tokens.idToken, cookie.nonce, validated) {
          r := Some(Ok(tokens));
        } else {
          r := Some(Err(InvalidIDToken));
        }
    }

    /** Attempts until one succeeds or the retries run out. */
    method RedeemValidTokens(challenge: string -> string, accessToken: string, jti: string)
      returns (r: Option<Tokens>, a: Attempt)
      modifies provider`refreshTokens, clock
      ensures a.granted <= a.validated && a.accessToken == accessToken && a.jti == jti
      ensures r.Some? ==>
                RedeemedTokens(challenge, Peers(), provider.codes, cookie.Value(), params.code, a) == Ok(r.value)
      ensures provider.reliable ==>
                (r.Some? <==> RedeemedTokens(challenge, Peers(), provider.codes, cookie.Value(), params.code, a).Ok?)
      ensures || provider.Value() == Redeemed(challenge, old(provider.Value()))
              || (r.None? && !provider.reliable && provider.Value() == old(provider.Value()))
    {
      var retries: nat :| retries >= 0;
      var answer;
      answer, a := RedeemTokens(challenge, accessToken, jti);
      while retries > 0 && !(answer.Some? && answer.value.Ok?)
        invariant a.granted <= a.validated && a.accessToken == accessToken && a.jti == jti
        invariant answer.Some? ==>
                    answer.value == RedeemedTokens(challenge, Peers(), provider.codes, cookie.Value(), params.code, a)
        invariant provider.reliable ==> answer.Some?
        invariant || provider.Value() == Redeemed(challenge, old(provider.Value()))
                  || (answer.None? && !provider.reliable && provider.Value() == old(provider.Value()))
      {
        retries := retries - 1;
        answer, a := RedeemTokens(challenge, accessToken, jti);
      }
      r := if answer.Some? && answer.value.Ok? then Some(answer.value.value) else None;
    }

    /** The handler up to the creation of the session: tokens mean that every check has passed. */
    method Handle(challenge: string -> string, accessToken: string, jti: string)
      returns (r: Option<Tokens>, a: Attempt)
      modifies provider`refreshTokens, clock
      ensures r.Some? ==>
                CallbackOutcome(challenge, Peers(), provider.codes, cookie.Value(), params, a) == Ok(r.value)
      ensures provider.reliable ==>
                (r.Some? <==> CallbackOutcome(challenge, Peers(), provider.codes, cookie.Value(), params, a).Ok?)
      ensures r.Some? ==>
                && params.error == "" && params.state == cookie.state != ""
                && params.code in provider.codes
                && r.value.idToken.nonce == cookie.nonce && r.value.accessToken == accessToken
                && provider.codes[params.code].redirectUri == cookie.redirectURI
                && provider.codes[params.code].codeChallenge == challenge(cookie.codeVerifier)
      ensures params.error == "" && !StateMismatches(cookie.Value(), params) ==>
                || provider.Value() == Redeemed(challenge, old(provider.Value()))
                || (r.None? && !provider.reliable && provider.Value() == old(provider.Value()))
      ensures params.error != "" || StateMismatches(cookie.Value(), params) ==>
                r.None? && provider.Value() == old(provider.Value())
    {
      a := Attempt(clock.now, clock.now, accessToken, jti);
      if params.error != "" || |params.state| == 0 || cookie.state != params.state {
        return None, a;
      }
      r, a := RedeemValidTokens(challenge, accessToken, jti);
    }
  }
}
