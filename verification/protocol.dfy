/**
  The session protocol as a step machine: any number of requests and logins,
  on any number of pods, over one store, one lock table and one identity
  provider (pkg/session/handler.go, lock.go, store_redis.go, store_memory.go,
  and the token maps of pkg/mock/openid.go).

  A step is one clock reading with the decision taken on it, one store, lock
  or provider command, or the passing of time.  Steps of different processes
  interleave freely.  A process that never takes its next step has crashed.
 */
module Protocol {
  import opened SessionTime
  import opened SessionData
  import opened SessionKeys
  import opened Wrappers
  import Redis
  import opened Provider

  // refreshLockDuration
  const LEASE: int := 10 * SECOND

  // The in-memory store ignores expiration and hands out a lock that excludes nobody.
  datatype Backend = RedisStore | MemoryStore

  datatype Config = Config(session: SessionConfig, backend: Backend, provider: string, clientID: string)

  datatype Role =
    | Proxy     // GetAccessToken, on every proxied request
    | Endpoint  // POST /oauth2/session/refresh
    | Login     // a login callback that has redeemed its code

  datatype PC =
    // Create
    | Stamping | Limiting | Writing
    // GetOrRefresh
    | Reading | CheckingIdle | Deciding
    // Refresh
    | Entering | Waiting
    | Rereading | CheckingCan | CheckingTimeout | Granting | Renewing | Extending | Updating | Setting
    | Releasing
    // what the caller does with the outcome
    | Finishing | Done

  datatype Outcome = Pending | Good(data: Data) | Bad(error: SessionError)

  // The clock readings of one refresh.
  datatype Readings = Readings(reread: Time, can: Time, idle: Time, renew: Time, extend: Time)

  /** The local variables of one request. */
  datatype Proc = Proc(
    role: Role,
    key: string,
    pc: PC,
    first: Data,            // as first read, the argument of Refresh
    firstIdle: Time,        // the reading of the first inactivity check
    expiresIn: int,         // Login: the token lifetime computed from the token response
    seen: Data,             // as re-read under the lock
    data: Data,             // the copy that is changed and written back
    response: TokenResponse,
    ticket: nat,            // the random owner value of the lock
    lease: Time,            // when the lock runs out
    stored: bool,           // an Update has taken effect
    at: Readings,
    refresh: Outcome,       // how Refresh ended
    result: Outcome,        // what the request ends with
    finishedAt: Time)

  datatype World = World(
    now: Time,
    store: Redis.Keyspace<Data>,
    locks: Redis.Keyspace<nat>,
    tickets: nat,           // locks obtained so far; the owner value of the next one
    live: map<string, RefreshTokenData>,
    issued: set<string>,    // every refresh token the provider ever handed out
    procs: map<nat, Proc>)

  // What a login names its session by: the id_token's sid, the session_state parameter, or a generated value.
  datatype Identification = Identification(
    sidRequired: bool, sessionStateRequired: bool, sid: Option<string>, sessionState: string, generated: string)

  function IdentifierOf(id: Identification): Result<string, SessionIDError> {
    NewSessionID(id.sidRequired, id.sessionStateRequired, id.sid, id.sessionState, id.generated)
  }

  datatype Event =
    | Tick(elapsed: nat)
    | Delete(key: string)                                   // a logout
    | Arrive(p: nat, role: Role, key: string)
    | Redeem(p: nat, session: Data, expiresIn: int, grant: RefreshTokenData, id: Identification)
    | Step(p: nat)                                          // the next local decision or read
    | Decide(p: nat, t1: Time, t2: Time)                    // shouldRefresh, with its earlier readings
    | Fail(p: nat)                                          // an error, or giving up
    | Deny(p: nat)                                          // the provider answers 4xx
    | Write(p: nat, acked: bool)
    | Acquire(p: nat)
    | AcquireLost(p: nat)                                   // the lock is set, but the answer never arrives
    | Grant(p: nat, response: TokenResponse)
    | GrantLost(p: nat, response: TokenResponse)            // granted, but the answer never arrives
    | Store(p: nat, acked: bool)                            // the second half of Update
    | Release(p: nat, acked: bool)

  const EMPTY_META: Meta := Meta(0, 0, 0, 0, 0)
  const EMPTY_DATA: Data := Data("", "", "", "", "", EMPTY_META)
  const NO_RESPONSE: TokenResponse := TokenResponse("", "", 0)

  function NewProc(role: Role, key: string, pc: PC): Proc {
    Proc(role, key, pc, EMPTY_DATA, 0, 0, EMPTY_DATA, EMPTY_DATA, NO_RESPONSE, 0, 0, false,
         Readings(0, 0, 0, 0, 0), Pending, Pending, 0)
  }

  function Init(start: Time): World {
    World(start, map[], map[], 0, map[], {}, map[])
  }

  // ------------------------------------------------------- local steps

  // GetOrRefresh after Refresh has returned, then the checks of GetAccessToken.
  function Answer(pr: Proc, now: Time): Outcome {
    if pr.role.Endpoint? then pr.refresh
    else if pr.refresh == Bad(InvalidState) || pr.refresh == Bad(SessionInactive) then pr.refresh
    else
      var d := if pr.refresh.Good? then pr.refresh.data else pr.first;
      if !d.HasAccessToken() then Bad(NoAccessToken)
      else if d.meta.IsExpired(now) then Bad(ExpiredAccessToken)
      else Good(d)
  }

  predicate CanStep(pc: PC) {
    pc.Stamping? || pc.Limiting? || pc.Reading? || pc.CheckingIdle? || pc.Entering? || pc.Rereading?
    || pc.CheckingCan? || pc.CheckingTimeout? || pc.Renewing? || pc.Extending? || pc.Updating? || pc.Finishing?
  }

  /** One local step of a process: it sees the clock and the store and changes its own variables. */
  function Advance(cfg: Config, now: Time, store: Redis.Keyspace<Data>, pr: Proc): Proc
    requires CanStep(pr.pc)
  {
    match pr.pc
    case Stamping =>
      pr.(pc := Limiting, data := pr.data.(meta := NewMetadata(now, pr.expiresIn, cfg.session.maxLifetime)))
    case Limiting =>
      pr.(pc := Writing, data := Touched(cfg.session, pr.data, now))
    case Reading => (
      match Redis.Get(store, now, pr.key)
      case None => pr.(pc := Done, result := Bad(KeyNotFound))
      case Some(d) => pr.(pc := if pr.role.Proxy? then CheckingIdle else Entering, first := d)
    )
    case CheckingIdle =>
      if IsTimedOut(cfg.session, pr.first, now)
      then pr.(pc := Done, result := Bad(SessionInactive))
      else pr.(pc := Deciding, firstIdle := now)
    case Entering =>
      if CanRefresh(cfg.session, pr.first, now)
      then pr.(pc := Waiting)
      else pr.(pc := Finishing, refresh := Good(pr.first))
    case Rereading => (
      match Redis.Get(store, now, pr.key)
      case None => pr.(pc := Releasing, refresh := Bad(KeyNotFound))
      case Some(d) => pr.(pc := CheckingCan, seen := d, data := d, at := pr.at.(reread := now))
    )
    case CheckingCan =>
      if CanRefresh(cfg.session, pr.seen, now)
      then pr.(pc := CheckingTimeout, at := pr.at.(can := now))
      else pr.(pc := Releasing, refresh := Good(pr.seen), at := pr.at.(can := now))
    case CheckingTimeout =>
      if IsTimedOut(cfg.session, pr.seen, now)
      then pr.(pc := Releasing, refresh := Bad(SessionInactive))
      else pr.(pc := Granting, at := pr.at.(idle := now))
    case Renewing =>
      pr.(pc := Extending, data := Renewed(pr.data, pr.response, now), at := pr.at.(renew := now))
    case Extending =>
      pr.(pc := Updating, data := Touched(cfg.session, pr.data, now), at := pr.at.(extend := now))
    case Updating =>
      if Redis.Has(store, now, pr.key)
      then pr.(pc := Setting)
      else pr.(pc := Releasing, refresh := Bad(KeyNotFound))
    case Finishing =>
      pr.(pc := Done, result := Answer(pr, now), finishedAt := now)
  }

  predicate CanFail(pc: PC) {
    pc.Reading? || pc.Waiting? || pc.Rereading? || pc.Granting? || pc.Updating? || pc.Setting?
  }

  function Failed(pr: Proc): Proc
    requires CanFail(pr.pc)
  {
    match pr.pc
    case Reading => pr.(pc := Done, result := Bad(Unexpected))
    case Waiting => pr.(pc := Finishing, refresh := Bad(LockNotAcquired))
    case _ => pr.(pc := Releasing, refresh := Bad(Unexpected))
  }

  function Decided(cfg: Config, pr: Proc, t1: Time, t2: Time, now: Time): Proc {
    if ShouldRefresh(cfg.session, pr.first, t1, t2, now)
    then pr.(pc := Entering)
    else pr.(pc := Finishing, refresh := Good(pr.first))
  }

  // ------------------------------------------------------ shared steps

  function Put(cfg: Config, store: Redis.Keyspace<Data>, now: Time, k: string, d: Data): Redis.Keyspace<Data> {
    if cfg.backend.RedisStore?
    then Redis.Set(store, now, k, d, cfg.session.maxLifetime)
    else store[k := Redis.Slot(d, None)]
  }

  predicate At(w: World, p: nat, pc: PC) {
    p in w.procs && w.procs[p].pc == pc
  }

  predicate FreshResponse(w: World, r: TokenResponse) {
    |r.refreshToken| > 0 && r.refreshToken !in w.issued
  }

  predicate Enabled(cfg: Config, w: World, e: Event) {
    match e
    case Tick(_) => true
    case Delete(_) => true
    case Arrive(p, role, _) => p !in w.procs && !role.Login?
    case Redeem(p, d, _, grant, id) =>
      p !in w.procs && grant.refreshToken == d.refreshToken && IdentifierOf(id) == Ok(d.externalSessionID)
    case Step(p) => p in w.procs && CanStep(w.procs[p].pc)
    case Decide(p, t1, t2) => At(w, p, Deciding) && w.procs[p].firstIdle <= t1 <= t2 <= w.now
    case Fail(p) => p in w.procs && CanFail(w.procs[p].pc)
    case Deny(p) => At(w, p, Granting)
    case Write(p, _) => At(w, p, Writing)
    case Acquire(p) =>
      At(w, p, Waiting) && (cfg.backend.RedisStore? ==> !Redis.Has(w.locks, w.now, w.procs[p].key))
    case AcquireLost(p) =>
      At(w, p, Waiting) && cfg.backend.RedisStore? && !Redis.Has(w.locks, w.now, w.procs[p].key)
    case Grant(p, r) =>
      At(w, p, Granting) && w.procs[p].seen.refreshToken in w.live && FreshResponse(w, r)
    case GrantLost(p, r) =>
      At(w, p, Granting) && w.procs[p].seen.refreshToken in w.live && FreshResponse(w, r)
    case Store(p, _) => At(w, p, Setting)
    case Release(p, _) => At(w, p, Releasing)
  }

  // The key of a session.
  function SessionKey(cfg: Config, d: Data): string {
    Key(cfg.provider, cfg.clientID, d.externalSessionID)
  }

  // What an event does to the process that takes it.
  function ProcAfter(cfg: Config, w: World, e: Event): Proc
    requires Enabled(cfg, w, e) && !e.Tick? && !e.Delete?
  {
    match e
    case Arrive(_, role, k) => NewProc(role, k, Reading)
    case Redeem(_, d, expiresIn, _, _) =>
      NewProc(Login, SessionKey(cfg, d), Stamping).(data := d, expiresIn := expiresIn)
    case Step(p) => Advance(cfg, w.now, w.store, w.procs[p])
    case Decide(p, t1, t2) => Decided(cfg, w.procs[p], t1, t2, w.now)
    case Fail(p) => Failed(w.procs[p])
    case Deny(p) => w.procs[p].(pc := Releasing, refresh := Bad(InvalidState))
    case Write(p, acked) =>
      if acked then w.procs[p].(pc := Done, result := Good(w.procs[p].data)) else w.procs[p]
    case Acquire(p) => w.procs[p].(pc := Rereading, ticket := w.tickets, lease := w.now + LEASE)
    case AcquireLost(p) => w.procs[p].(pc := Finishing, refresh := Bad(Unexpected))
    case Grant(p, r) => w.procs[p].(pc := Renewing, response := r)
    case GrantLost(p, _) => w.procs[p].(pc := Releasing, refresh := Bad(Unexpected))
    case Store(p, acked) =>
      if acked then w.procs[p].(stored := true, pc := Releasing, refresh := Good(w.procs[p].data))
      else w.procs[p].(stored := true, pc := Updating)
    case Release(p, _) => w.procs[p].(pc := Finishing)
  }

  // To the session store.
  function StoreAfter(cfg: Config, w: World, e: Event): Redis.Keyspace<Data>
    requires Enabled(cfg, w, e)
  {
    match e
    case Delete(k) => Redis.Del(w.store, k)
    case Write(p, _) => Put(cfg, w.store, w.now, w.procs[p].key, w.procs[p].data)
    case Store(p, _) => Redis.SetKeepTtl(w.store, w.now, w.procs[p].key, w.procs[p].data)
    case _ => w.store
  }

  // To the lock table.
  function LocksAfter(cfg: Config, w: World, e: Event): Redis.Keyspace<nat>
    requires Enabled(cfg, w, e)
  {
    if cfg.backend.MemoryStore? then w.locks
    else
      match e
      case Acquire(p) => Redis.SetIfAbsent(w.locks, w.now, w.procs[p].key, w.tickets, LEASE)
      case AcquireLost(p) => Redis.SetIfAbsent(w.locks, w.now, w.procs[p].key, w.tickets, LEASE)
      case Release(p, acked) =>
        if acked then Redis.DelIfEqual(w.locks, w.now, w.procs[p].key, w.procs[p].ticket) else w.locks
      case _ => w.locks
  }

  // To the provider's table of refresh tokens.  A login may come without one.
  function LiveAfter(cfg: Config, w: World, e: Event): map<string, RefreshTokenData>
    requires Enabled(cfg, w, e)
  {
    match e
    case Redeem(_, d, _, grant, _) => if d.HasRefreshToken() then w.live[d.refreshToken := grant] else w.live
    case Grant(p, r) => Rotate(w.live, w.procs[p].seen.refreshToken, r.refreshToken)
    case GrantLost(p, r) => Rotate(w.live, w.procs[p].seen.refreshToken, r.refreshToken)
    case _ => w.live
  }

  function IssuedAfter(w: World, e: Event): set<string> {
    match e
    case Redeem(_, d, _, _, _) => if d.HasRefreshToken() then w.issued + {d.refreshToken} else w.issued
    case Grant(_, r) => w.issued + {r.refreshToken}
    case GrantLost(_, r) => w.issued + {r.refreshToken}
    case _ => w.issued
  }

  function Next(cfg: Config, w: World, e: Event): World
    requires Enabled(cfg, w, e)
  {
    World(
      if e.Tick? then w.now + e.elapsed else w.now,
      StoreAfter(cfg, w, e),
      LocksAfter(cfg, w, e),
      if e.Acquire? || e.AcquireLost? then w.tickets + 1 else w.tickets,
      LiveAfter(cfg, w, e),
      IssuedAfter(w, e),
      if e.Tick? || e.Delete? then w.procs else w.procs[e.p := ProcAfter(cfg, w, e)])
  }

  // -------------------------------------------------------------- runs

  /** The world after a sequence of events, and whether each of them could happen. */
  function Run(cfg: Config, start: Time, es: seq<Event>): (w: Option<World>) {
    if es == [] then Some(Init(start))
    else
      var before := Run(cfg, start, es[..|es| - 1]);
      var e := es[|es| - 1];
      if before.Some? && Enabled(cfg, before.value, e) then Some(Next(cfg, before.value, e)) else None
  }

  // ------------------------------------------------------------ phases

  // A login that has redeemed its code and not written its session.
  predicate Unwritten(pr: Proc) {
    pr.pc.Stamping? || pr.pc.Limiting? || pr.pc.Writing?
  }

  // Between a successful Acquire and the Release.
  predicate Holding(pr: Proc) {
    InSection(pr) || pr.pc.Releasing?
  }

  // Between a successful Acquire and the end of Update.
  predicate InSection(pr: Proc) {
    pr.pc.Rereading? || Armed(pr)
  }

  // Between the re-read and the end of Update.
  predicate Armed(pr: Proc) {
    pr.pc.CheckingCan? || pr.pc.CheckingTimeout? || PastTimeoutCheck(pr)
  }

  // Between the inactivity check and the end of Update.
  predicate PastTimeoutCheck(pr: Proc) {
    pr.pc.Granting? || Granted(pr)
  }

  // Between the provider's answer and the end of Update.
  predicate Granted(pr: Proc) {
    pr.pc.Renewing? || pr.pc.Extending? || pr.pc.Updating? || pr.pc.Setting?
  }

  // The provider has rotated the token and the store does not know yet.
  predicate InFlight(pr: Proc) {
    Granted(pr) && !pr.stored
  }

  // -------------------------------------------------------- hypotheses

  // e is taken by a process of k.
  predicate ActsOn(w: World, e: Event, k: string) {
    !e.Tick? && !e.Delete? && e.p in w.procs && w.procs[e.p].key == k
  }

  // p is in its critical section and its lock has not run out.
  predicate Leased(w: World, p: nat) {
    p in w.procs && InSection(w.procs[p]) && w.now < w.procs[p].lease
  }

  /** A process of k acts in its critical section only while its lock lasts.  It may stop there for ever. */
  predicate InLease(w: World, e: Event, k: string) {
    ActsOn(w, e, k) && InSection(w.procs[e.p]) ==> Leased(w, e.p)
  }

  // No refresh of k with time left on its lock is between its re-read and the end of its update.
  ghost predicate Quiet(w: World, k: string) {
    forall p :: p in w.procs && w.procs[p].key == k && Armed(w.procs[p]) ==> !Leased(w, p)
  }

  /** No Create, Delete or expiry of k falls between the re-read and the end of Update of a refresh on it. */
  ghost predicate NoIntrusion(w: World, e: Event, k: string) {
    match e
    case Write(p, _) => ActsOn(w, e, k) ==> Quiet(w, k)
    case Delete(deleted) => deleted == k ==> Quiet(w, k)
    case Tick(d) =>
      forall p :: p in w.procs && w.procs[p].key == k && Armed(w.procs[p]) && w.now + d < w.procs[p].lease ==>
        (Redis.Has(w.store, w.now, k) ==> Redis.Has(w.store, w.now + d, k))
    case _ => true
  }

  /** The answer to a grant on k arrives, and the update that follows is neither given up nor late. */
  ghost predicate NoLoss(w: World, e: Event, k: string) {
    && (e.GrantLost? ==> !ActsOn(w, e, k))
    && (e.Fail? && ActsOn(w, e, k) ==> !InFlight(w.procs[e.p]))
    && (e.Tick? ==> forall p :: p in w.procs && w.procs[p].key == k && InFlight(w.procs[p]) ==>
                      w.now + e.elapsed < w.procs[p].lease)
  }

  /** Authorization codes are used once, so a login's refresh token is a new one. */
  ghost predicate SingleUseCodes(w: World, e: Event) {
    e.Redeem? ==> e.session.refreshToken !in w.issued
  }

  /** A run in which every step meets the lease and intrusion hypotheses for k. */
  ghost predicate Disciplined(cfg: Config, start: Time, es: seq<Event>, k: string) {
    es == [] ||
    var before, e := Run(cfg, start, es[..|es| - 1]), es[|es| - 1];
    && Disciplined(cfg, start, es[..|es| - 1], k)
    && (before.Some? ==> InLease(before.value, e, k) && NoIntrusion(before.value, e, k))
  }

  ghost predicate Lossless(cfg: Config, start: Time, es: seq<Event>, k: string) {
    es == [] ||
    var before, e := Run(cfg, start, es[..|es| - 1]), es[|es| - 1];
    && Lossless(cfg, start, es[..|es| - 1], k)
    && (before.Some? ==> NoLoss(before.value, e, k))
  }

  ghost predicate UsesCodesOnce(cfg: Config, start: Time, es: seq<Event>) {
    UsesCodesOnceSince(cfg, start, es, 0)
  }

  // From the n-th event on; the lease hypothesis likewise.
  ghost predicate UsesCodesOnceSince(cfg: Config, start: Time, es: seq<Event>, n: nat)
    requires n <= |es|
  {
    |es| == n ||
    var before, e := Run(cfg, start, es[..|es| - 1]), es[|es| - 1];
    && UsesCodesOnceSince(cfg, start, es[..|es| - 1], n)
    && (before.Some? ==> SingleUseCodes(before.value, e))
  }

  ghost predicate InLeaseSince(cfg: Config, start: Time, es: seq<Event>, n: nat, k: string)
    requires n <= |es|
  {
    |es| == n ||
    var before, e := Run(cfg, start, es[..|es| - 1]), es[|es| - 1];
    && InLeaseSince(cfg, start, es[..|es| - 1], n, k)
    && (before.Some? ==> InLease(before.value, e, k))
  }
}
