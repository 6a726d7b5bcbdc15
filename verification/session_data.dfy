/**
  What a session stores (pkg/session/data.go) and the decisions the handler
  takes on it (pkg/session/handler.go).  Encrypting and then decrypting is the
  identity, so stores hold plain data.
 */
module SessionData {
  import opened SessionTime

  datatype Data = Data(
    externalSessionID: string,
    accessToken: string,
    idToken: string,
    refreshToken: string,
    idTokenJwtID: string,
    meta: Meta)
  {
    predicate HasAccessToken() {
      |accessToken| > 0
    }

    predicate HasRefreshToken() {
      |refreshToken| > 0
    }
  }

  /** The part of the token endpoint's answer to a refresh that is used. */
  datatype TokenResponse = TokenResponse(accessToken: string, refreshToken: string, expiresIn: int)

  datatype SessionConfig = SessionConfig(refresh: bool, inactivity: bool, inactivityTimeout: int, maxLifetime: int)

  datatype SessionError =
    | CookieNotFound
    | KeyNotFound
    | Unexpected
    | LockNotAcquired
    | SessionInactive
    | InvalidState
    | NoAccessToken
    | ExpiredAccessToken

  predicate CanRefresh(cfg: SessionConfig, d: Data, now: Time) {
    cfg.refresh && d.HasRefreshToken() && !d.meta.IsRefreshOnCooldown(now)
  }

  predicate ShouldRefresh(cfg: SessionConfig, d: Data, t1: Time, t2: Time, t3: Time) {
    cfg.refresh && d.HasRefreshToken() && d.meta.ShouldRefresh(t1, t2, t3)
  }

  predicate IsTimedOut(cfg: SessionConfig, d: Data, now: Time) {
    cfg.inactivity && d.meta.IsTimedOut(now)
  }

  /** An automatic refresh never starts one that the first guard of Refresh would turn away. */
  lemma ShouldRefreshImpliesCanRefresh(cfg: SessionConfig, d: Data, t1: Time, t2: Time, t3: Time)
    requires t1 <= t2 <= t3
    requires ShouldRefresh(cfg, d, t1, t2, t3)
    ensures forall t :: t >= t3 ==> CanRefresh(cfg, d, t)
  {
    RefreshWindow(d.meta, t1, t2, t3);
  }

  // The first half of applying a response: the tokens and Metadata.Refresh.
  function Renewed(d: Data, r: TokenResponse, now: Time): Data {
    d.(accessToken := r.accessToken, refreshToken := r.refreshToken, meta := d.meta.Refreshed(now, r.expiresIn))
  }

  // The second half: ExtendTimeout, when inactivity is configured.
  function Touched(cfg: SessionConfig, d: Data, now: Time): Data {
    if cfg.inactivity then d.(meta := d.meta.Extended(now, cfg.inactivityTimeout)) else d
  }

  /** What one refresh makes of a session, field by field: r is the answer, and the times are its clock readings. */
  predicate Renewal(cfg: SessionConfig, before: Data, r: TokenResponse, renew: Time, extend: Time, after: Data) {
    && after.externalSessionID == before.externalSessionID
    && after.idToken == before.idToken
    && after.idTokenJwtID == before.idTokenJwtID
    && after.accessToken == r.accessToken
    && after.refreshToken == r.refreshToken
    && after.meta.createdAt == before.meta.createdAt
    && after.meta.endsAt == before.meta.endsAt
    && after.meta.refreshedAt == renew
    && after.meta.expireAt == renew + r.expiresIn * SECOND
    && after.meta.timeoutAt == if cfg.inactivity then extend + cfg.inactivityTimeout else before.meta.timeoutAt
  }

  lemma RefreshIsRenewal(cfg: SessionConfig, d: Data, r: TokenResponse, t1: Time, t2: Time, t3: Time)
    requires t1 <= t2 <= t3
    requires CanRefresh(cfg, d, t1)
    ensures Renewal(cfg, d, r, t2, t3, Touched(cfg, Renewed(d, r, t2), t3))
    ensures t2 >= d.meta.RefreshCooldown()
  {
  }

  /** An automatic refresh is due once the cooldown is over and expiry is less than five minutes away. */
  predicate IsDue(cfg: SessionConfig, d: Data, t: Time) {
    cfg.refresh && d.HasRefreshToken() && d.meta.RefreshCooldown() < t && d.meta.expireAt - 5 * MINUTE < t
  }

  /** The decision, made with three readings, is right for one of them. */
  lemma ShouldRefreshIsDue(cfg: SessionConfig, d: Data, t1: Time, t2: Time, t3: Time)
    requires t1 <= t2 <= t3
    ensures ShouldRefresh(cfg, d, t1, t2, t3) ==> IsDue(cfg, d, t3)
    ensures IsDue(cfg, d, t1) ==> ShouldRefresh(cfg, d, t1, t2, t3)
  {
    RefreshWindow(d.meta, t1, t2, t3);
  }
}
