/**
  The time arithmetic of pkg/session/data.go.

  Times are integer nanoseconds since Go's zero time, durations are integer
  nanoseconds.  A method of the program that calls `time.Now()` several times
  takes one argument for each reading.
 */
module SessionTime {

  type Time = int

  const SECOND: int := 1_000_000_000
  const MINUTE: int := 60 * SECOND

  const REFRESH_MIN_INTERVAL: int := MINUTE
  const REFRESH_LEEWAY: int := 5 * MINUTE

  // The zero value of a timestamp, `IsZero()` in Go.
  const ZERO_TIME: Time := 0

  // Go's integer division truncates toward zero.
  function Half(d: int): int {
    if d >= 0 then d / 2 else -((-d) / 2)
  }

  function Max(a: int, b: int): int {
    if a < b then b else a
  }

  function Min(a: int, b: int): int {
    if a < b then a else b
  }

  /** `int64(d.Seconds())` clamped at zero, for durations below 2^24 seconds. */
  function ToSeconds(d: int): int {
    if d <= 0 then 0 else d / SECOND
  }

  /** The value held by a session's metadata record. */
  datatype Meta = Meta(createdAt: Time, endsAt: Time, timeoutAt: Time, expireAt: Time, refreshedAt: Time) {

    function TokenLifetime(): int {
      expireAt - refreshedAt
    }

    function RefreshCooldown(): Time {
      if TokenLifetime() <= REFRESH_MIN_INTERVAL * 2 then
        refreshedAt + Half(TokenLifetime())
      else
        refreshedAt + REFRESH_MIN_INTERVAL
    }

    predicate IsExpired(now: Time) {
      now > expireAt
    }

    predicate IsRefreshOnCooldown(now: Time) {
      now < RefreshCooldown()
    }

    function NextRefresh(now: Time): Time {
      var next := expireAt - REFRESH_LEEWAY;
      if next < now then RefreshCooldown() else next
    }

    // The three arguments are the readings made by IsRefreshOnCooldown,
    // NextRefresh and the final comparison.
    predicate ShouldRefresh(t1: Time, t2: Time, t3: Time) {
      !IsRefreshOnCooldown(t1) && t3 > NextRefresh(t2)
    }

    predicate IsTimedOut(now: Time) {
      timeoutAt != ZERO_TIME && now > timeoutAt
    }

    function Refreshed(now: Time, nextExpirySeconds: int): Meta {
      this.(refreshedAt := now, expireAt := now + nextExpirySeconds * SECOND)
    }

    function Extended(now: Time, duration: int): Meta {
      this.(timeoutAt := now + duration)
    }

    // The instant after which an automatic refresh is due.
    ghost function Due(): Time {
      Max(RefreshCooldown(), expireAt - REFRESH_LEEWAY)
    }
  }

  function NewMetadata(now: Time, expiresIn: int, endsIn: int): Meta {
    Meta(now, now + endsIn, ZERO_TIME, now + expiresIn, now)
  }

  datatype MetaVerbose = MetaVerbose(
    meta: Meta,
    endsInSeconds: int,
    active: bool,
    timeoutInSeconds: int,
    expireInSeconds: int,
    nextAutoRefreshInSeconds: int,
    refreshCooldown: bool,
    refreshCooldownSeconds: int)

  /** What `/oauth2/session` reports at one clock reading when refreshing is enabled. */
  function VerboseWithRefresh(m: Meta, now: Time): MetaVerbose {
    MetaVerbose(
      m,
      ToSeconds(m.endsAt - now),
      !m.IsTimedOut(now),
      if m.timeoutAt == ZERO_TIME then -1 else ToSeconds(m.timeoutAt - now),
      ToSeconds(m.expireAt - now),
      ToSeconds(m.NextRefresh(now) - now),
      m.IsRefreshOnCooldown(now),
      ToSeconds(m.RefreshCooldown() - now))
  }

  // ---------------------------------------------------------------- laws

  /** The cooldown lasts half the token lifetime, and never more than a minute. */
  lemma CooldownLength(m: Meta)
    requires m.TokenLifetime() >= 0
    ensures m.RefreshCooldown() - m.refreshedAt == if m.expireAt - m.refreshedAt < 2 * MINUTE
                                                   then (m.expireAt - m.refreshedAt) / 2 else MINUTE
  {
  }

  /** Halving rounds toward zero. */
  lemma HalfTruncates(d: int)
    ensures Half(-d) == -Half(d)
    ensures d >= 0 ==> 2 * Half(d) <= d < 2 * Half(d) + 2
  {
  }

  /** Whatever the lifetime, the cooldown is over a minute after the refresh, and not before it for one that is not negative. */
  lemma CooldownAtMost(m: Meta)
    ensures m.RefreshCooldown() <= m.refreshedAt + REFRESH_MIN_INTERVAL
    ensures m.TokenLifetime() >= 0 ==> m.RefreshCooldown() >= m.refreshedAt
  {
    HalfTruncates(m.TokenLifetime());
    HalfTruncates(-m.TokenLifetime());
  }

  /**
    The automatic refresh window.  With readings in clock order, a positive
    answer means the due instant has passed by the last reading, and a due
    instant already past at the first reading forces a positive answer; so for
    one reading the two agree.
   */
  lemma RefreshWindow(m: Meta, t1: Time, t2: Time, t3: Time)
    requires t1 <= t2 <= t3
    ensures m.ShouldRefresh(t1, t2, t3) ==> m.Due() < t3
    ensures m.Due() < t1 ==> m.ShouldRefresh(t1, t2, t3)
    ensures m.ShouldRefresh(t1, t1, t1) <==> m.Due() < t1
    ensures m.ShouldRefresh(t1, t2, t3) ==> !m.IsRefreshOnCooldown(t3)
  {
  }

  lemma RefreshWindowStaysOpen(m: Meta, s: Time, t1: Time, t2: Time, t3: Time)
    requires m.ShouldRefresh(s, s, s)
    requires s <= t1 <= t2 <= t3
    ensures m.ShouldRefresh(t1, t2, t3)
  {
    RefreshWindow(m, s, s, s);
    RefreshWindow(m, t1, t2, t3);
  }

  /** A token that lives at all can be refreshed automatically before it expires. */
  lemma RefreshWindowReachable(m: Meta)
    requires m.TokenLifetime() > 0
    ensures exists t :: m.ShouldRefresh(t, t, t) && !m.IsExpired(t)
  {
    var t := m.expireAt;
    RefreshWindow(m, t, t, t);
    assert m.ShouldRefresh(t, t, t) && !m.IsExpired(t);
  }

  /** The exact condition: a token that is dead on arrival has no such instant. */
  lemma RefreshWindowReachableIff(m: Meta)
    ensures (exists t :: m.ShouldRefresh(t, t, t) && !m.IsExpired(t)) <==> m.TokenLifetime() > 0
  {
    if m.TokenLifetime() > 0 {
      RefreshWindowReachable(m);
    } else {
      forall t | m.ShouldRefresh(t, t, t) ensures m.IsExpired(t) {
        RefreshWindow(m, t, t, t);
      }
    }
  }

  // s is d in whole seconds, rounded down; or zero if d is negative.
  predicate IsFloorOf(s: int, d: int) {
    s * SECOND <= (if d < 0 then 0 else d) < (s + 1) * SECOND
  }

  /** Whole seconds, never negative. */
  lemma ToSecondsIsFloor(d: int)
    ensures IsFloorOf(ToSeconds(d), d)
  {
  }

  lemma ToSecondsMonotone(a: int, b: int)
    requires a <= b
    ensures 0 <= ToSeconds(a) <= ToSeconds(b)
  {
  }

  /** The figures reported for one instant do not contradict each other. */
  lemma ReportedTimesConsistent(m: Meta, now: Time)
    requires m.TokenLifetime() >= 0
    requires m.refreshedAt <= now
    ensures var v := VerboseWithRefresh(m, now);
      && v.nextAutoRefreshInSeconds <= v.expireInSeconds
      && 0 <= v.refreshCooldownSeconds <= 60
      && (v.refreshCooldownSeconds > 0 ==> v.refreshCooldown)
      && (v.timeoutInSeconds == -1 <==> m.timeoutAt == ZERO_TIME)
      && v.timeoutInSeconds >= -1
      && (v.active <==> m.timeoutAt == ZERO_TIME || now <= m.timeoutAt)
      && (!v.active ==> v.timeoutInSeconds == 0)
      && (v.timeoutInSeconds != -1 ==> IsFloorOf(v.timeoutInSeconds, m.timeoutAt - now))
      && (v.refreshCooldown <==> now < m.RefreshCooldown())
      && IsFloorOf(v.refreshCooldownSeconds, m.RefreshCooldown() - now)
      && IsFloorOf(v.expireInSeconds, m.expireAt - now)
      && IsFloorOf(v.nextAutoRefreshInSeconds,
                   (if m.expireAt - 5 * MINUTE < now then m.RefreshCooldown() else m.expireAt - 5 * MINUTE) - now)
      && (v.nextAutoRefreshInSeconds > 0 ==> !m.ShouldRefresh(now, now, now))
      && (m.ShouldRefresh(now, now, now) ==> !v.refreshCooldown)
      && (v.expireInSeconds > 0 ==> !m.IsExpired(now))
      && IsFloorOf(v.endsInSeconds, m.endsAt - now)
      && v.meta == m
  {
    ToSecondsMonotone(m.NextRefresh(now) - now, m.expireAt - now);
    ToSecondsMonotone(m.RefreshCooldown() - now, MINUTE);
    ToSecondsIsFloor(m.endsAt - now);
    ToSecondsIsFloor(m.timeoutAt - now);
    ToSecondsIsFloor(m.expireAt - now);
    ToSecondsIsFloor(m.RefreshCooldown() - now);
    ToSecondsIsFloor(m.NextRefresh(now) - now);
  }

  // ------------------------------------------------------------- objects

  /** A shared clock that never runs backwards. */
  class Clock {
    var now: Time

    constructor (start: Time)
      ensures now == start
    {
      now := start;
    }

    /** One `time.Now()`: any amount of time may have gone by since the last one. */
    method Now() returns (t: Time)
      modifies this
      ensures t == now >= old(now)
    {
      var elapsed :| elapsed >= 0;
      now := now + elapsed;
      t := now;
    }
  }

  /** The metadata record as the program holds it: updated in place. */
  class Metadata {
    var createdAt: Time
    var endsAt: Time
    var timeoutAt: Time
    var expireAt: Time
    var refreshedAt: Time

    function Value(): Meta
      reads this
    {
      Meta(createdAt, endsAt, timeoutAt, expireAt, refreshedAt)
    }

    constructor (m: Meta)
      ensures Value() == m
    {
      createdAt, endsAt, timeoutAt := m.createdAt, m.endsAt, m.timeoutAt;
      expireAt, refreshedAt := m.expireAt, m.refreshedAt;
    }

    constructor New(clock: Clock, expiresIn: int, endsIn: int)
      modifies clock
      ensures clock.now >= old(clock.now)
      ensures Value() == NewMetadata(clock.now, expiresIn, endsIn)
      ensures createdAt == refreshedAt == clock.now && timeoutAt == ZERO_TIME
      ensures expireAt == clock.now + expiresIn && endsAt == clock.now + endsIn
    {
      var t := clock.Now();
      createdAt, endsAt, timeoutAt := t, t + endsIn, ZERO_TIME;
      expireAt, refreshedAt := t + expiresIn, t;
    }

    method Refresh(clock: Clock, nextExpirySeconds: int)
      modifies this, clock
      ensures clock.now >= old(clock.now)
      ensures Value() == old(Value()).Refreshed(clock.now, nextExpirySeconds)
      ensures refreshedAt == clock.now && expireAt == clock.now + nextExpirySeconds * SECOND
      ensures unchanged(`createdAt) && unchanged(`endsAt) && unchanged(`timeoutAt)
    {
      var t := clock.Now();
      refreshedAt := t;
      expireAt := t + nextExpirySeconds * SECOND;
    }

    method ExtendTimeout(clock: Clock, duration: int)
      modifies this, clock
      ensures clock.now >= old(clock.now)
      ensures Value() == old(Value()).Extended(clock.now, duration)
      ensures timeoutAt == clock.now + duration
      ensures unchanged(`createdAt) && unchanged(`endsAt) && unchanged(`expireAt) && unchanged(`refreshedAt)
    {
      var t := clock.Now();
      timeoutAt := t + duration;
    }
  }
}
