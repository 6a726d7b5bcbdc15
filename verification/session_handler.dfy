/**
  The session handler as an object (pkg/session/handler.go) on the Redis store,
  and the logout handlers on top of it (pkg/handler/api/logout/logout.go,
  logoutfrontchannel.go), run without interference.  The protocol modules say
  what interleaving such runs can do; here each method is tied to the single
  atomic step that stands for it there.
 */
module SessionHandler {
  import opened SessionTime
  import opened SessionData
  import opened SessionKeys
  import opened Wrappers
  import Redis
  import opened SessionStores
  import Provider
  import Protocol
  import Refinement = ProtocolRefinement

  /** Session data as a request holds it: changed in place. */
  class Record {
    var externalSessionID: string
    var accessToken: string
    var idToken: string
    var refreshToken: string
    var idTokenJwtID: string
    const metadata: Metadata

    function Value(): Data
      reads this, metadata
    {
      Data(externalSessionID, accessToken, idToken, refreshToken, idTokenJwtID, metadata.Value())
    }

    // Decoding what the store holds makes a new record.
    constructor (d: Data)
      ensures Value() == d && fresh(metadata)
    {
      externalSessionID, accessToken, idToken := d.externalSessionID, d.accessToken, d.idToken;
      refreshToken, idTokenJwtID := d.refreshToken, d.idTokenJwtID;
      metadata := new Metadata(d.meta);
    }
  }

  // What the session store holds under one key.
  function Only(entries: Redis.Keyspace<Value>, key: string): Redis.Keyspace<Data> {
    if key in entries && entries[key].value.SessionValue?
    then map[key := Redis.Slot(entries[key].value.data, entries[key].deadline)]
    else map[]
  }

  lemma LockKeyDiffers(key: string)
    ensures LockKey(key) != key
  {
    assert |LockKey(key)| > |key|;
  }

  // Writing twice is writing once, at the later time.
  lemma SetTwice(ks: Redis.Keyspace<Value>, t1: Time, t2: Time, k: string, v: Value, expiration: int)
    requires t1 <= t2
    ensures Redis.Set(Redis.Set(ks, t1, k, v, expiration), t2, k, v, expiration) == Redis.Set(ks, t2, k, v, expiration)
  {
  }

  lemma SetKeepTtlTwice(ks: Redis.Keyspace<Value>, t1: Time, t2: Time, k: string, v: Value)
    requires t1 <= t2
    ensures Redis.SetKeepTtl(Redis.SetKeepTtl(ks, t1, k, v), t2, k, v) == Redis.SetKeepTtl(ks, t2, k, v)
  {
  }

  lemma OnlyAfterUpdate(entries: Redis.Keyspace<Value>, t: Time, key: string, d: Data)
    requires key in entries && entries[key].value.SessionValue?
    ensures Only(Redis.SetKeepTtl(entries, t, key, SessionValue(d)), key) == Redis.SetKeepTtl(Only(entries, key), t, key, d)
  {
  }

  lemma OnlyAfterRelease(entries: Redis.Keyspace<Value>, t: Time, key: string, owner: nat)
    ensures Only(Redis.DelIfEqual(entries, t, LockKey(key), LockValue(owner)), key) == Only(entries, key)
  {
    LockKeyDiffers(key);
  }

  // Nothing changes but the session of key and its lock.
  ghost predicate OnlyTouches(before: Redis.Keyspace<Value>, after: Redis.Keyspace<Value>, key: string) {
    forall k :: k != key && k != LockKey(key) ==>
      (k in after <==> k in before) && (k in before ==> after[k] == before[k])
  }

  // Nothing changes but the lock of key.
  ghost predicate OnlyLocks(before: Redis.Keyspace<Value>, after: Redis.Keyspace<Value>, key: string) {
    forall k :: k != LockKey(key) ==> (k in after <==> k in before) && (k in before ==> after[k] == before[k])
  }

  ghost predicate SameLock(before: Redis.Keyspace<Value>, after: Redis.Keyspace<Value>, key: string) {
    (LockKey(key) in after <==> LockKey(key) in before) &&
    (LockKey(key) in before ==> after[LockKey(key)] == before[LockKey(key)])
  }

  // The lock was free at time t and was taken with the given value.
  ghost predicate LockTaken(before: Redis.Keyspace<Value>, after: Redis.Keyspace<Value>, key: string, t: Time, owner: nat) {
    && !Redis.Has(before, t, LockKey(key))
    && LockKey(key) in after && after[LockKey(key)] == Redis.Slot(LockValue(owner), Some(t + Protocol.LEASE))
  }

  /** The lock of key is as it was; or it was free, and is left free or with a new owner's lease. */
  ghost predicate LockFates(before: Redis.Keyspace<Value>, after: Redis.Keyspace<Value>, key: string,
                            from: Time, to: Time, firstOwner: nat) {
    || SameLock(before, after, key)
    || (exists t :: from <= t <= to && !Redis.Has(before, t, LockKey(key)) && LockKey(key) !in after)
    || (exists t, owner: nat :: from <= t <= to && owner >= firstOwner && LockTaken(before, after, key, t, owner))
  }

  // A lock that was taken, and then released or not.
  lemma LockFatesAfterRelease(before: Redis.Keyspace<Value>, taken: Redis.Keyspace<Value>, held: Redis.Keyspace<Value>,
                              after: Redis.Keyspace<Value>, key: string, from: Time, t: Time, to: Time, owner: nat, firstOwner: nat)
    requires from <= t <= to && owner >= firstOwner && LockTaken(before, taken, key, t, owner) && SameLock(taken, held, key)
    requires after == held || after == Redis.DelIfEqual(held, to, LockKey(key), LockValue(owner))
    ensures LockFates(before, after, key, from, to, firstOwner)
    ensures OnlyTouches(held, after, key)
  {
    if LockKey(key) in after {
      assert LockTaken(before, after, key, t, owner);
    } else {
      assert !Redis.Has(before, t, LockKey(key));
    }
  }

  datatype GrantError = ClientError | ServerFault | OtherFault

  class Handler {
    const cfg: SessionConfig
    const provider: string
    const clientID: string
    const store: RedisStore
    const idp: Provider.IdentityProvider

    constructor (cfg: SessionConfig, provider: string, clientID: string, store: RedisStore, idp: Provider.IdentityProvider)
      ensures this.cfg == cfg && this.provider == provider && this.clientID == clientID
      ensures this.store == store && this.idp == idp
    {
      this.cfg, this.provider, this.clientID, this.store, this.idp := cfg, provider, clientID, store, idp;
    }

    // ------------------------------------------------------------ create

    // d is a new session with these tokens, field by field, for two clock readings.
    ghost predicate IsNewSession(d: Data, id: string, tokens: Data, expiresIn: int, stamped: Time, limited: Time) {
      && d.externalSessionID == id
      && d.accessToken == tokens.accessToken && d.refreshToken == tokens.refreshToken
      && d.idToken == tokens.idToken && d.idTokenJwtID == tokens.idTokenJwtID
      && d.meta.createdAt == d.meta.refreshedAt == stamped
      && d.meta.expireAt == stamped + expiresIn
      && d.meta.endsAt == stamped + cfg.maxLifetime
      && d.meta.timeoutAt == if cfg.inactivity then limited + cfg.inactivityTimeout else ZERO_TIME
    }

    // What the protocol's login has at its write, when it makes its steps at these times.
    function LoginAt(id: string, tokens: Data, expiresIn: int, stamped: Time, limited: Time): Protocol.Proc {
      var login := Protocol.NewProc(Protocol.Login, Key(provider, clientID, id), Protocol.Stamping).(
                   data := tokens.(externalSessionID := id), expiresIn := expiresIn);
      Protocol.Advance(Config(), limited, map[], Protocol.Advance(Config(), stamped, map[], login))
    }

    /**
      Writes a new session, trying again on errors.  Whatever is reported, the
      entry is the old one or the new session with its deadline counted from
      the time of a write; it is the one that a login of the protocol writes.
     */
    method Create(id: string, tokens: Data, expiresIn: int)
      returns (r: Result<string, SessionError>, ghost d: Data, ghost stamped: Time, ghost limited: Time, ghost written: Time)
      modifies store.server`entries, store.server.clock
      ensures old(store.server.clock.now) <= stamped <= limited <= written <= store.server.clock.now
      ensures IsNewSession(d, id, tokens, expiresIn, stamped, limited)
      ensures Protocol.SessionKey(Config(), d) == Key(provider, clientID, id)
      ensures var login := LoginAt(id, tokens, expiresIn, stamped, limited);
        login.pc == Protocol.Writing && login.key == Key(provider, clientID, id) && login.data == d
      ensures var key := Key(provider, clientID, id);
        var after := Redis.Set(old(store.server.entries), written, key, SessionValue(d), cfg.maxLifetime);
        && (r.Ok? ==> r.value == key && store.server.entries == after)
        && (r.Err? ==> r.error == Unexpected)
        && (store.server.entries == after || store.server.entries == old(store.server.entries))
        && (store.server.entries == after && (key in old(store.server.entries) ==> old(store.server.entries)[key].value.SessionValue?) ==>
              Only(store.server.entries, key) == Protocol.Put(Config(), Only(old(store.server.entries), key), written, key, d))
      ensures store.server.reliable ==> r.Ok?
    {
      var key := Key(provider, clientID, id);
      var clock := store.server.clock;
      var metadata := new Metadata.New(clock, expiresIn, cfg.maxLifetime);
      stamped := clock.now;
      if cfg.inactivity {
        metadata.ExtendTimeout(clock, cfg.inactivityTimeout);
      }
      limited := clock.now;
      var data := tokens.(externalSessionID := id, meta := metadata.Value());
      d := data;

      ghost var before := store.server.entries;
      var retries: nat :| retries >= 0;
      var failed := store.Write(key, data, cfg.maxLifetime);
      written := clock.now;
      while retries > 0 && failed.Some?
        invariant limited <= written <= clock.now
        invariant store.server.reliable ==> failed.None?
        invariant failed.None? ==> store.server.entries == Redis.Set(before, written, key, SessionValue(data), cfg.maxLifetime)
        invariant store.server.entries == Redis.Set(before, written, key, SessionValue(data), cfg.maxLifetime)
                  || store.server.entries == before
      {
        retries := retries - 1;
        ghost var last := written;
        ghost var sofar := store.server.entries;
        failed := store.Write(key, data, cfg.maxLifetime);
        SetTwice(before, last, clock.now, key, SessionValue(data), cfg.maxLifetime);
        written := if store.server.entries == sofar && failed.Some? then last else clock.now;
      }
      r := if failed.None? then Ok(key) else Err(Unexpected);
      OnlyAfterWrite(before, written, key, data);
    }

    lemma OnlyAfterWrite(entries: Redis.Keyspace<Value>, t: Time, key: string, d: Data)
      ensures (key in entries ==> entries[key].value.SessionValue?) ==>
                Only(Redis.Set(entries, t, key, SessionValue(d), cfg.maxLifetime), key) ==
                Protocol.Put(Config(), Only(entries, key), t, key, d)
    {
    }

    // -------------------------------------------------------------- read

    /** Reads a session into a new record, trying again on errors other than a missing key. */
    method GetForKey(key: string) returns (r: Result<Record, SessionError>)
      modifies store.server.clock
      ensures store.server.clock.now >= old(store.server.clock.now)
      ensures r.Ok? ==>
                && fresh(r.value) && fresh(r.value.metadata)
                && Redis.Get(store.server.entries, store.server.clock.now, key) == Some(SessionValue(r.value.Value()))
      ensures r.Err? ==> r.error in {KeyNotFound, Unexpected}
      ensures store.server.reliable && HasSession(store.server.entries, store.server.clock.now, key) ==> r.Ok?
      ensures store.server.reliable && !Redis.Has(store.server.entries, old(store.server.clock.now), key) ==> r == Err(KeyNotFound)
      ensures r == Err(KeyNotFound) ==> !Redis.Has(store.server.entries, store.server.clock.now, key)
    {
      var retries: nat :| retries >= 0;
      var found := store.Read(key);
      while retries > 0 && found == Err(Unexpected)
        invariant store.server.clock.now >= old(store.server.clock.now)
        invariant found.Ok? ==> Redis.Get(store.server.entries, store.server.clock.now, key) == Some(SessionValue(found.value))
        invariant found.Err? ==> found.error in {KeyNotFound, Unexpected}
        invariant found == Err(KeyNotFound) ==> !Redis.Has(store.server.entries, store.server.clock.now, key)
        invariant store.server.reliable && found == Err(Unexpected) ==>
                    key in store.server.entries && store.server.entries[key].value.LockValue?
                    && Redis.Has(store.server.entries, old(store.server.clock.now), key)
      {
        retries := retries - 1;
        found := store.Read(key);
      }
      if found.Err? {
        return Err(found.error);
      }
      var record := new Record(found.value);
      r := Ok(record);
    }

    // ----------------------------------------------------------- refresh

    // Tries to take the lock until it succeeds, errs or gives up.
    method AcquireLock(lock: RedisLock) returns (failed: Option<SessionError>)
      requires lock.server == store.server
      modifies lock`owner, store.server`entries, store.server`nextOwner, store.server.clock
      ensures store.server.clock.now >= old(store.server.clock.now)
      ensures OnlyLocks(old(store.server.entries), store.server.entries, lock.key)
      ensures failed.None? ==>
                && lock.owner.Some? && lock.owner.value >= old(store.server.nextOwner)
                && exists t :: old(store.server.clock.now) <= t <= store.server.clock.now
                               && LockTaken(old(store.server.entries), store.server.entries, lock.key, t, lock.owner.value)
      ensures failed.Some? ==> failed.value in {LockNotAcquired, Unexpected}
      ensures failed.Some? ==>
                LockFates(old(store.server.entries), store.server.entries, lock.key,
                          old(store.server.clock.now), store.server.clock.now, old(store.server.nextOwner))
      ensures store.server.reliable && !Redis.Has(old(store.server.entries), old(store.server.clock.now), LockKey(lock.key)) ==>
                failed.None?
      ensures Redis.Has(old(store.server.entries), store.server.clock.now, LockKey(lock.key)) ==> failed.Some?
      ensures store.server.reliable && failed.Some? ==>
                failed == Some(LockNotAcquired) && store.server.entries == old(store.server.entries)
    {
      LockKeyDiffers(lock.key);
      ghost var from, before := store.server.clock.now, store.server.entries;
      var patience: nat :| store.server.reliable ==> patience > 0;
      ghost var hope := patience > 0;
      failed := Some(LockNotAcquired);
      while patience > 0 && failed == Some(LockNotAcquired)
        invariant store.server.clock.now >= old(store.server.clock.now)
        invariant store.server.nextOwner >= old(store.server.nextOwner)
        invariant hope ==> patience > 0 || failed != Some(LockNotAcquired)
                           || Redis.Has(before, from, LockKey(lock.key))
        invariant store.server.reliable ==> failed != Some(Unexpected)
        invariant failed == Some(LockNotAcquired) ==> store.server.entries == before
        invariant OnlyLocks(before, store.server.entries, lock.key)
        invariant failed.None? ==>
                    && lock.owner.Some? && lock.owner.value >= old(store.server.nextOwner)
                    && exists t :: from <= t <= store.server.clock.now
                                   && LockTaken(before, store.server.entries, lock.key, t, lock.owner.value)
        invariant failed.Some? ==> failed.value in {LockNotAcquired, Unexpected}
        invariant failed.Some? ==>
                    LockFates(before, store.server.entries, lock.key, from, store.server.clock.now, old(store.server.nextOwner))
      {
        patience := patience - 1;
        ghost var owner := store.server.nextOwner;
        failed := lock.Acquire(Protocol.LEASE);
        assert store.server.entries != before ==>
            LockTaken(before, store.server.entries, lock.key, store.server.clock.now, owner);
      }
    }

    function GrantForm(refreshToken: string): Provider.RefreshForm {
      Provider.RefreshForm(refreshToken, clientID, Provider.ValidAssertion)
    }

    // The provider's answer to a refresh, with the random values it has drawn.
    function Answer(accessToken: string, uuid: string): TokenResponse {
      TokenResponse(accessToken, uuid + "some-new-refresh-token", idp.cfg.tokenDuration / SECOND)
    }

    function FaultOf(refused: Option<Provider.Status>): GrantError {
      if refused == Some(Provider.ServerError) then ServerFault else ClientError
    }

    /**
      Asks for new tokens, again after server errors.  The provider has rotated
      the token if the answer is a success, and possibly if it is another fault.
     */
    method RefreshGrant(refreshToken: string, accessToken: string, uuid: string)
      returns (r: Result<TokenResponse, GrantError>)
      modifies idp`refreshTokens, store.server.clock
      ensures store.server.clock.now >= old(store.server.clock.now)
      ensures var live, live' := old(idp.refreshTokens), idp.refreshTokens;
        var refused := Provider.RefreshGrantError(live, GrantForm(refreshToken));
        && (r.Ok? ==> refused.None? && r.value == Answer(accessToken, uuid)
                      && live' == Provider.Rotate(live, refreshToken, Provider.RotatedToken(uuid)))
        && (r == Err(ClientError) ==> refused.Some? && live' == live)
        && (r == Err(ServerFault) ==> live' == live)
        && (r == Err(OtherFault) ==>
              live' == live || (refused.None? && live' == Provider.Rotate(live, refreshToken, Provider.RotatedToken(uuid))))
        && (idp.reliable ==> r.Ok? == refused.None? && (r.Err? ==> r.error == FaultOf(refused)))
    {
      var retries: nat :| retries >= 0;
      r := Err(ServerFault);
      var attempts := retries + 1;
      while attempts > 0 && r == Err(ServerFault)
        invariant store.server.clock.now >= old(store.server.clock.now)
        invariant var live, live' := old(idp.refreshTokens), idp.refreshTokens;
          var refused := Provider.RefreshGrantError(live, GrantForm(refreshToken));
          && (r.Ok? ==> refused.None? && r.value == Answer(accessToken, uuid)
                        && live' == Provider.Rotate(live, refreshToken, Provider.RotatedToken(uuid)))
          && (r == Err(ClientError) ==> refused.Some? && live' == live)
          && (r == Err(ServerFault) ==> live' == live)
          && (r == Err(OtherFault) ==>
                live' == live || (refused.None? && live' == Provider.Rotate(live, refreshToken, Provider.RotatedToken(uuid))))
          && (idp.reliable ==>
                if r.Ok? then refused.None?
                else attempts > retries || (refused.Some? && r.error == FaultOf(refused)))
        invariant attempts <= retries + 1 && (attempts > retries ==> r == Err(ServerFault))
      {
        attempts := attempts - 1;
        var _ := store.server.clock.Now();
        r := GrantOnce(refreshToken, accessToken, uuid);
      }
    }

    // One request to the token endpoint; it, or its answer, can get lost.
    method GrantOnce(refreshToken: string, accessToken: string, uuid: string)
      returns (r: Result<TokenResponse, GrantError>)
      modifies idp`refreshTokens
      ensures var live, live' := old(idp.refreshTokens), idp.refreshTokens;
        var refused := Provider.RefreshGrantError(live, GrantForm(refreshToken));
        && (r.Ok? ==> refused.None? && r.value == Answer(accessToken, uuid)
                      && live' == Provider.Rotate(live, refreshToken, Provider.RotatedToken(uuid)))
        && (r == Err(ClientError) ==> refused.Some? && live' == live)
        && (r == Err(ServerFault) ==> live' == live)
        && (r == Err(OtherFault) ==>
              live' == live || (refused.None? && live' == Provider.Rotate(live, refreshToken, Provider.RotatedToken(uuid))))
        && (idp.reliable ==> r.Ok? == refused.None? && (r.Err? ==> r.error == FaultOf(refused)))
    {
      var reached, answered: bool := *, *;
      if !reached && !idp.reliable {
        var busy: bool := *;
        return Err(if busy then ServerFault else OtherFault);
      }
      var answer := idp.RefreshTokenGrant(GrantForm(refreshToken), accessToken, uuid);
      if !answered && !idp.reliable {
        return Err(OtherFault);
      }
      match answer
      case Ok(t) => r := Ok(TokenResponse(t.0, t.1, t.2));
      case Err(status) => r := Err(if status.ServerError? then ServerFault else ClientError);
    }

    /** Writes the record back, trying again on errors other than a missing key. */
    method Update(key: string, data: Record) returns (failed: Option<SessionError>, ghost kept: bool, ghost stored: Time)
      modifies store.server`entries, store.server.clock
      ensures old(store.server.clock.now) <= stored <= store.server.clock.now
      ensures failed.None? ==> kept
      ensures failed.Some? ==> failed.value in {KeyNotFound, Unexpected}
      ensures store.server.entries ==
              if kept then Redis.SetKeepTtl(old(store.server.entries), stored, key, SessionValue(data.Value()))
              else old(store.server.entries)
      ensures store.server.reliable && HasSession(old(store.server.entries), store.server.clock.now, key) ==> failed.None?
      ensures store.server.reliable && !Redis.Has(old(store.server.entries), old(store.server.clock.now), key) ==>
                failed == Some(KeyNotFound)
    {
      var clock := store.server.clock;
      ghost var before := store.server.entries;
      var encoded := data.Value();
      var retries: nat :| retries >= 0;
      kept, stored := false, clock.now;
      failed := Some(Unexpected);
      var attempts := retries + 1;
      while attempts > 0 && failed == Some(Unexpected)
        invariant old(clock.now) <= stored <= clock.now
        invariant failed.None? ==> kept
        invariant failed.Some? ==> failed.value in {KeyNotFound, Unexpected}
        invariant store.server.entries ==
                  if kept then Redis.SetKeepTtl(before, stored, key, SessionValue(encoded)) else before
        invariant attempts <= retries + 1 && (attempts > retries ==> failed == Some(Unexpected) && !kept)
        invariant store.server.reliable && HasSession(before, clock.now, key) ==> failed.None? || attempts > retries
        invariant store.server.reliable && !Redis.Has(before, old(clock.now), key) ==>
                    (failed == Some(KeyNotFound) || attempts > retries) && !kept
      {
        attempts := attempts - 1;
        ghost var sofar := store.server.entries;
        failed := store.Update(key, encoded);
        if kept {
          SetKeepTtlTwice(before, stored, clock.now, key, SessionValue(encoded));
        }
        if store.server.entries == Redis.SetKeepTtl(sofar, clock.now, key, SessionValue(encoded)) && failed != Some(KeyNotFound) {
          kept, stored := true, clock.now;
        }
      }
    }

    function Config(): Protocol.Config {
      Protocol.Config(cfg, Protocol.RedisStore, provider, clientID)
    }

    // The part of the shared state that a refresh of one key works on.
    function Shared(key: string): Refinement.Shared
      reads store.server, idp
    {
      Refinement.Shared(Only(store.server.entries, key), idp.refreshTokens)
    }

    // The effect of a refresh: none, or that of one effective atomic refresh.
    ghost predicate Amounts(before: Refinement.Shared, after: Refinement.Shared, key: string, op: Option<Refinement.Op>) {
      if op.None? then after == before
      else
        && op.value.Refresh? && op.value.key == key
        && Refinement.Effective(Config(), before, op.value)
        && Refinement.InClockOrder(op.value)
        && after == Refinement.SequentialRefresh(Config(), before, op.value)
    }

    // Applies a response to the re-read record and writes the record back.
    method Renew(key: string, data: Record, resp: TokenResponse)
      returns (failed: Option<SessionError>, ghost renew: Time, ghost extend: Time, ghost kept: bool, ghost stored: Time)
      requires data.metadata != data as object
      modifies data, data.metadata, store.server`entries, store.server.clock
      ensures old(store.server.clock.now) <= renew <= extend <= stored <= store.server.clock.now
      ensures data.Value() == Touched(cfg, Renewed(old(data.Value()), resp, renew), extend)
      ensures Renewal(cfg, old(data.Value()), resp, renew, extend, data.Value())
      ensures failed.None? ==> kept
      ensures failed.Some? ==> failed.value in {KeyNotFound, Unexpected}
      ensures store.server.entries ==
              if kept then Redis.SetKeepTtl(old(store.server.entries), stored, key, SessionValue(data.Value()))
              else old(store.server.entries)
      ensures store.server.reliable && HasSession(old(store.server.entries), store.server.clock.now, key) ==> failed.None?
    {
      var clock := store.server.clock;
      data.accessToken := resp.accessToken;
      data.refreshToken := resp.refreshToken;
      data.metadata.Refresh(clock, resp.expiresIn);
      renew := clock.now;
      assert data.Value() == Renewed(old(data.Value()), resp, renew);
      if cfg.inactivity {
        data.metadata.ExtendTimeout(clock, cfg.inactivityTimeout);
      }
      extend := clock.now;
      failed, kept, stored := Update(key, data);
    }

    // A completed run of the checks, the grant and the update is one effective refresh.
    lemma AmountsToRefresh(before: Refinement.Shared, after: Refinement.Shared, o: Refinement.Op, seen: Data)
      requires o.Refresh? && Refinement.InClockOrder(o)
      requires Redis.Get(before.store, o.at.reread, o.key) == Some(seen)
      requires CanRefresh(cfg, seen, o.at.can) && !IsTimedOut(cfg, seen, o.at.idle)
      requires seen.refreshToken in before.live
      requires after.live == Provider.Rotate(before.live, seen.refreshToken, o.response.refreshToken)
      requires after.store ==
               if o.kept
               then Redis.SetKeepTtl(before.store, o.stored, o.key, Touched(cfg, Renewed(seen, o.response, o.at.renew), o.at.extend))
               else before.store
      ensures Amounts(before, after, o.key, Some(o))
    {
    }

    // d was read at some time, and could not be refreshed at a later one.
    ghost predicate Reread(before: Refinement.Shared, key: string, d: Data) {
      exists reread, can :: reread <= can && Redis.Get(before.store, reread, key) == Some(d) && !CanRefresh(cfg, d, can)
    }

    // The session has become what the provider's answer makes of it.
    ghost predicate HasAnswer(before: Refinement.Shared, key: string, op: Refinement.Op, accessToken: string, uuid: string,
                              after: Data)
    {
      && op.Refresh? && op.response == Answer(accessToken, uuid)
      && key in before.store && Renewal(cfg, before.store[key].value, op.response, op.at.renew, op.at.extend, after)
    }

    // All readings of a refresh were made between two times.
    ghost predicate Within(op: Option<Refinement.Op>, from: Time, until: Time) {
      op.Some? && op.value.Refresh? ==>
        && from <= op.value.at.reread && op.value.at.idle <= until
        && (op.value.kept ==> op.value.stored <= until)
    }

    ghost predicate Reliable() {
      store.server.reliable && idp.reliable
    }

    function ValueOf(r: Result<Record, SessionError>): Result<Data, SessionError>
      reads if r.Ok? then {r.value, r.value.metadata} else {}
    {
      if r.Ok? then Ok(r.value.Value()) else Err(r.error)
    }

    /**
      How a refresh ends, with the lock held, that starts at one time and is over
      by another, when everybody can be reached: for a session that is there all
      the while, and for one that is not there at all.
     */
    ghost predicate EndsAsExpected(entries: Redis.Keyspace<Value>, live: map<string, Provider.RefreshTokenData>, key: string,
                                   from: Time, until: Time, r: Result<Data, SessionError>, op: Option<Refinement.Op>)
    {
      && (!Redis.Has(entries, from, key) ==> r == Err(KeyNotFound))
      && (HasSession(entries, until, key) ==>
            var d := entries[key].value.data;
            && (!CanRefresh(cfg, d, until) ==> op.None? && r == Ok(d))
            && (CanRefresh(cfg, d, from) && IsTimedOut(cfg, d, from) ==> r == Err(SessionInactive))
            && (CanRefresh(cfg, d, from) && !IsTimedOut(cfg, d, until) ==>
                  match Provider.RefreshGrantError(live, GrantForm(d.refreshToken))
                  case None => op.Some? && r.Ok?
                  case Some(ServerError) => r == Err(Unexpected)
                  case Some(_) => r == Err(InvalidState)))
    }

    lemma EndsLater(entries: Redis.Keyspace<Value>, entries': Redis.Keyspace<Value>, live: map<string, Provider.RefreshTokenData>,
                    key: string, from: Time, from': Time, until': Time, until: Time,
                    r: Result<Data, SessionError>, op: Option<Refinement.Op>)
      requires from <= from' <= until' <= until
      requires (key in entries' <==> key in entries) && (key in entries ==> entries'[key] == entries[key])
      requires EndsAsExpected(entries', live, key, from', until', r, op)
      ensures EndsAsExpected(entries, live, key, from, until, r, op)
    {
    }

    /** What happens with the lock held: re-read, check again, grant, update. */
    method RefreshLocked(key: string, accessToken: string, uuid: string, ghost ticket: nat)
      returns (r: Result<Record, SessionError>, ghost op: Option<Refinement.Op>)
      modifies store.server`entries, store.server.clock, idp`refreshTokens
      ensures store.server.clock.now >= old(store.server.clock.now)
      ensures Amounts(old(Shared(key)), Shared(key), key, op)
      ensures Within(op, old(store.server.clock.now), store.server.clock.now)
      ensures OnlyTouches(old(store.server.entries), store.server.entries, key)
      ensures SameLock(old(store.server.entries), store.server.entries, key)
      ensures r.Ok? ==> fresh(r.value) && fresh(r.value.metadata)
      ensures r.Ok? && op.None? ==> Reread(old(Shared(key)), key, r.value.Value())
      ensures r.Ok? && op.Some? ==>
                && op.value.kept
                && key in Shared(key).store && Shared(key).store[key].value == r.value.Value()
                && HasAnswer(old(Shared(key)), key, op.value, accessToken, uuid, r.value.Value())
      ensures r.Err? && r.error in {SessionInactive, InvalidState} ==> op.None?
      ensures Reliable() ==>
                EndsAsExpected(old(store.server.entries), old(idp.refreshTokens), key, old(store.server.clock.now),
                               store.server.clock.now, ValueOf(r), op)
    {
      var clock := store.server.clock;
      ghost var before := Shared(key);
      op := None;
      var reread := GetForKey(key);
      if reread.Err? {
        return Err(reread.error), None;
      }
      var data := reread.value;
      ghost var seen := data.Value();
      ghost var t0 := clock.now;
      assert Redis.Get(before.store, t0, key) == Some(seen);
      var t1 := clock.Now();
      if !CanRefresh(cfg, data.Value(), t1) {
        assert Reread(before, key, seen);
        return Ok(data), None;
      }
      LockKeyDiffers(key);
      var t2 := clock.Now();
      if IsTimedOut(cfg, data.Value(), t2) {
        return Err(SessionInactive), None;
      }
      ghost var entries := store.server.entries;
      var resp := RefreshGrant(data.refreshToken, accessToken, uuid);
      if resp.Err? {
        match resp.error {
          case ClientError =>
            assert resp == Err(ClientError);
            return Err(InvalidState), None;
          case ServerFault =>
            assert resp == Err(ServerFault);
            return Err(Unexpected), None;
          case OtherFault =>
            assert resp == Err(OtherFault);
            if idp.refreshTokens != before.live {
              var lost := TokenResponse("", Provider.RotatedToken(uuid), 0);
              op := Some(Refinement.Refresh(key, ticket, Protocol.Readings(t0, t1, t2, t2, t2), t2, lost, false));
              AmountsToRefresh(before, Shared(key), op.value, seen);
            }
            return Err(Unexpected), op;
        }
      }
      var failed;
      ghost var t3, t4, kept, stored;
      failed, t3, t4, kept, stored := Renew(key, data, resp.value);
      OnlyAfterUpdate(entries, stored, key, data.Value());
      op := Some(Refinement.Refresh(key, ticket, Protocol.Readings(t0, t1, t2, t3, t4), stored, resp.value, kept));
      AmountsToRefresh(before, Shared(key), op.value, seen);
      r := if failed.Some? then Err(failed.value) else Ok(data);
    }

    /** Takes the lock, refreshes, and releases the lock. */
    method RefreshAlone(key: string, accessToken: string, uuid: string)
      returns (r: Result<Record, SessionError>, ghost op: Option<Refinement.Op>)
      modifies store.server`entries, store.server`nextOwner, store.server.clock, idp`refreshTokens
      ensures store.server.clock.now >= old(store.server.clock.now)
      ensures Amounts(old(Shared(key)), Shared(key), key, op)
      ensures Within(op, old(store.server.clock.now), store.server.clock.now)
      ensures OnlyTouches(old(store.server.entries), store.server.entries, key)
      ensures LockFates(old(store.server.entries), store.server.entries, key,
                        old(store.server.clock.now), store.server.clock.now, old(store.server.nextOwner))
      ensures r.Ok? ==> fresh(r.value) && fresh(r.value.metadata)
      ensures r.Ok? && op.None? ==> Reread(old(Shared(key)), key, r.value.Value())
      ensures r.Ok? && op.Some? ==>
                && op.value.kept
                && key in Shared(key).store && Shared(key).store[key].value == r.value.Value()
                && HasAnswer(old(Shared(key)), key, op.value, accessToken, uuid, r.value.Value())
      ensures r.Err? && r.error in {SessionInactive, InvalidState} ==> op.None?
      ensures Redis.Has(old(store.server.entries), store.server.clock.now, LockKey(key)) ==>
                r.Err? && op.None? && (store.server.reliable ==> r.error == LockNotAcquired)
      ensures Reliable() && !Redis.Has(old(store.server.entries), old(store.server.clock.now), LockKey(key)) ==>
                && EndsAsExpected(old(store.server.entries), old(idp.refreshTokens), key, old(store.server.clock.now),
                                  store.server.clock.now, ValueOf(r), op)
                && !Redis.Has(store.server.entries, store.server.clock.now, LockKey(key))
    {
      var lock := new RedisLock(store.server, key);
      ghost var from, before, firstOwner := store.server.clock.now, store.server.entries, store.server.nextOwner;
      var failed := AcquireLock(lock);
      if failed.Some? {
        OnlyLockTouched(before, store.server.entries, key);
        return Err(failed.value), None;
      }
      ghost var taken, locked, live := store.server.entries, store.server.clock.now, idp.refreshTokens;
      ghost var t :| from <= t <= locked && LockTaken(before, taken, key, t, lock.owner.value);
      OnlyLockTouched(before, taken, key);
      r, op := RefreshLocked(key, accessToken, uuid, lock.owner.value);
      ghost var held, unlocked := store.server.entries, store.server.clock.now;
      var _ := lock.Release();
      LockFatesAfterRelease(before, taken, held, store.server.entries, key, from, t, store.server.clock.now,
                            lock.owner.value, firstOwner);
      OnlyAfterRelease(held, store.server.clock.now, key, lock.owner.value);
      if Reliable() {
        EndsLater(before, taken, live, key, from, locked, unlocked, store.server.clock.now, ValueOf(r), op);
      }
    }

    lemma OnlyLockTouched(before: Redis.Keyspace<Value>, after: Redis.Keyspace<Value>, key: string)
      requires OnlyLocks(before, after, key)
      ensures OnlyTouches(before, after, key) && Only(before, key) == Only(after, key)
      ensures (key in after <==> key in before) && (key in before ==> after[key] == before[key])
    {
      LockKeyDiffers(key);
    }

    /**
      Refreshes a session.  The record it is given is never changed; the shared
      state changes as by at most one atomic refresh of the protocol.
     */
    method Refresh(key: string, data: Record, accessToken: string, uuid: string)
      returns (r: Result<Record, SessionError>, ghost op: Option<Refinement.Op>)
      modifies store.server`entries, store.server`nextOwner, store.server.clock, idp`refreshTokens
      ensures store.server.clock.now >= old(store.server.clock.now)
      ensures data.Value() == old(data.Value())
      ensures Amounts(old(Shared(key)), Shared(key), key, op)
      ensures Within(op, old(store.server.clock.now), store.server.clock.now)
      ensures OnlyTouches(old(store.server.entries), store.server.entries, key)
      ensures LockFates(old(store.server.entries), store.server.entries, key,
                        old(store.server.clock.now), store.server.clock.now, old(store.server.nextOwner))
      ensures r.Ok? && r.value != data ==> fresh(r.value) && fresh(r.value.metadata)
      ensures r.Ok? && r.value != data && op.None? ==> Reread(old(Shared(key)), key, r.value.Value())
      ensures r == Ok(data) ==>
                && op.None?
                && exists t :: old(store.server.clock.now) <= t <= store.server.clock.now && !CanRefresh(cfg, data.Value(), t)
      ensures r.Ok? && op.Some? ==>
                && op.value.kept
                && key in Shared(key).store && Shared(key).store[key].value == r.value.Value()
                && HasAnswer(old(Shared(key)), key, op.value, accessToken, uuid, r.value.Value())
      ensures r.Err? && r.error in {SessionInactive, InvalidState} ==> op.None?
      ensures !CanRefresh(cfg, data.Value(), store.server.clock.now) ==> r == Ok(data)
      ensures CanRefresh(cfg, data.Value(), old(store.server.clock.now)) ==> r != Ok(data)
      ensures CanRefresh(cfg, data.Value(), old(store.server.clock.now))
              && Redis.Has(old(store.server.entries), store.server.clock.now, LockKey(key)) ==>
                r.Err? && op.None? && (store.server.reliable ==> r.error == LockNotAcquired)
      ensures Reliable() && CanRefresh(cfg, data.Value(), old(store.server.clock.now))
              && !Redis.Has(old(store.server.entries), old(store.server.clock.now), LockKey(key)) ==>
                && EndsAsExpected(old(store.server.entries), old(idp.refreshTokens), key, old(store.server.clock.now),
                                  store.server.clock.now, ValueOf(r), op)
                && !Redis.Has(store.server.entries, store.server.clock.now, LockKey(key))
    {
      var now := store.server.clock.Now();
      if !CanRefresh(cfg, data.Value(), now) {
        return Ok(data), None;
      }
      ghost var from, entries, live := store.server.clock.now, store.server.entries, idp.refreshTokens;
      r, op := RefreshAlone(key, accessToken, uuid);
      if Reliable() && !Redis.Has(old(store.server.entries), old(store.server.clock.now), LockKey(key)) {
        EndsLater(entries, entries, live, key, old(store.server.clock.now), from, store.server.clock.now,
                  store.server.clock.now, ValueOf(r), op);
      }
    }

    /**
      The session of a request, refreshed if that is due.  The outcome of the
      refresh is returned as well: errors other than an invalid state or
      inactivity fall back to the session as it was first read.
     */
    method GetOrRefresh(cookie: Option<string>, accessToken: string, uuid: string)
      returns (r: Result<Record, SessionError>, ghost first: Data, ghost idle: Time,
               ghost refresh: Option<Result<Data, SessionError>>, ghost op: Option<Refinement.Op>)
      modifies store.server`entries, store.server`nextOwner, store.server.clock, idp`refreshTokens
      ensures store.server.clock.now >= old(store.server.clock.now)
      ensures cookie.None? ==> r == Err(CookieNotFound) && op.None?
      ensures cookie.None? ==> store.server.entries == old(store.server.entries)
      ensures cookie.Some? ==>
                && Amounts(old(Shared(cookie.value)), Shared(cookie.value), cookie.value, op)
                && Within(op, old(store.server.clock.now), store.server.clock.now)
                && OnlyTouches(old(store.server.entries), store.server.entries, cookie.value)
                && LockFates(old(store.server.entries), store.server.entries, cookie.value,
                             old(store.server.clock.now), store.server.clock.now, old(store.server.nextOwner))
      ensures r.Ok? ==> cookie.Some? && !IsTimedOut(cfg, first, idle)
      ensures match refresh
        case None => op.None? && (r.Ok? ==> r.value.Value() == first)
        case Some(Ok(d)) =>
          && r.Ok? && r.value.Value() == d
          && (op.None? ==> d == first || Reread(old(Shared(cookie.value)), cookie.value, d))
        case Some(Err(e)) => if e in {InvalidState, SessionInactive} then r == Err(e) else r.Ok? && r.value.Value() == first
      ensures refresh.Some? && refresh.value.Ok? && op.Some? ==>
                && op.value.kept
                && cookie.value in Shared(cookie.value).store
                && Shared(cookie.value).store[cookie.value].value == refresh.value.value
                && HasAnswer(old(Shared(cookie.value)), cookie.value, op.value, accessToken, uuid, refresh.value.value)
      ensures r.Err? ==> op.None?
      ensures refresh.Some? ==> IsDue(cfg, first, store.server.clock.now)
      ensures refresh.None? && r.Ok? ==> exists t :: idle <= t <= store.server.clock.now && !IsDue(cfg, first, t)
      ensures Reliable() && cookie.Some? && !Redis.Has(old(store.server.entries), old(store.server.clock.now), cookie.value) ==>
                r == Err(KeyNotFound)
      ensures Reliable() && cookie.Some? && HasSession(old(store.server.entries), store.server.clock.now, cookie.value) ==>
                var d, from, until := first, old(store.server.clock.now), store.server.clock.now;
                && d == old(store.server.entries)[cookie.value].value.data
                && (IsTimedOut(cfg, d, from) ==> r == Err(SessionInactive))
                && (!IsTimedOut(cfg, d, until) && !IsDue(cfg, d, until) ==> refresh.None? && ValueOf(r) == Ok(d))
                && (!IsTimedOut(cfg, d, until) && IsDue(cfg, d, from) ==> refresh.Some?)
                && (!IsTimedOut(cfg, d, until) && IsDue(cfg, d, from)
                    && !Redis.Has(old(store.server.entries), from, LockKey(cookie.value)) ==>
                      EndsAsExpected(old(store.server.entries), old(idp.refreshTokens), cookie.value, from, until,
                                     refresh.value, op))
    {
      first, idle, refresh, op := Protocol.EMPTY_DATA, 0, None, None;
      if cookie.None? {
        return Err(CookieNotFound), first, idle, refresh, op;
      }
      var read := GetForKey(cookie.value);
      if read.Err? {
        return Err(read.error), first, idle, refresh, op;
      }
      var data := read.value;
      first := data.Value();
      var now := store.server.clock.Now();
      idle := now;
      if IsTimedOut(cfg, data.Value(), now) {
        return Err(SessionInactive), first, idle, refresh, op;
      }
      var t1 := store.server.clock.Now();
      var t2 := store.server.clock.Now();
      var t3 := store.server.clock.Now();
      ShouldRefreshIsDue(cfg, first, t1, t2, t3);
      if !ShouldRefresh(cfg, data.Value(), t1, t2, t3) {
        assert !IsDue(cfg, first, t1);
        return Ok(data), first, idle, refresh, op;
      }
      var refreshed;
      refreshed, op := Refresh(cookie.value, data, accessToken, uuid);
      refresh := Some(if refreshed.Ok? then Ok(refreshed.value.Value()) else Err(refreshed.error));
      if refreshed.Err? && refreshed.error in {InvalidState, SessionInactive} {
        return Err(refreshed.error), first, idle, refresh, op;
      }
      r := if refreshed.Ok? then refreshed else Ok(data);
    }

    /** What a request for the session d is answered, by the time it is over, when everybody can be reached. */
    ghost predicate AnswersAsExpected(d: Data, live: map<string, Provider.RefreshTokenData>, unlocked: bool, from: Time, until: Time,
                                      accessToken: string, r: Result<string, SessionError>)
    {
      && (IsTimedOut(cfg, d, from) ==> r == Err(SessionInactive))
      && (!IsTimedOut(cfg, d, until) && !IsDue(cfg, d, until) ==>
            && (d.accessToken == "" ==> r == Err(NoAccessToken))
            && (d.accessToken != "" && until <= d.meta.expireAt ==> r == Ok(d.accessToken))
            && (d.accessToken != "" && d.meta.expireAt < from ==> r == Err(ExpiredAccessToken)))
      && (!IsTimedOut(cfg, d, until) && IsDue(cfg, d, from) && unlocked ==>
            var refused := Provider.RefreshGrantError(live, GrantForm(d.refreshToken));
            && (refused.None? && accessToken != "" && until <= from + (idp.cfg.tokenDuration / SECOND) * SECOND ==>
                  r == Ok(accessToken))
            && (refused.Some? && refused != Some(Provider.ServerError) ==> r == Err(InvalidState))
            && (refused == Some(Provider.ServerError) && d.accessToken != "" && until <= d.meta.expireAt ==>
                  r == Ok(d.accessToken)))
    }

    /**
      The token of the session as first read, active then; or re-read, and not
      to be refreshed any more, in which case nobody asks whether it has timed
      out; or as this request has refreshed and stored it, active before.
     */
    method GetAccessToken(cookie: Option<string>, accessToken: string, uuid: string)
      returns (r: Result<string, SessionError>, ghost d: Data, ghost first: Data, ghost idle: Time,
               ghost refresh: Option<Result<Data, SessionError>>, ghost op: Option<Refinement.Op>)
      modifies store.server`entries, store.server`nextOwner, store.server.clock, idp`refreshTokens
      ensures store.server.clock.now >= old(store.server.clock.now)
      ensures cookie.None? ==> r == Err(CookieNotFound) && store.server.entries == old(store.server.entries)
      ensures cookie.Some? ==>
                && Amounts(old(Shared(cookie.value)), Shared(cookie.value), cookie.value, op)
                && Within(op, old(store.server.clock.now), store.server.clock.now)
                && OnlyTouches(old(store.server.entries), store.server.entries, cookie.value)
                && LockFates(old(store.server.entries), store.server.entries, cookie.value,
                             old(store.server.clock.now), store.server.clock.now, old(store.server.nextOwner))
      ensures r.Ok? ==>
                && cookie.Some?
                && r.value == d.accessToken && |r.value| > 0
                && !d.meta.IsExpired(store.server.clock.now)
                && !IsTimedOut(cfg, first, idle)
                && (refresh.Some? && refresh.value.Ok? ==> d == refresh.value.value)
                && (refresh.None? || refresh.value.Err? ==> d == first)
                && (d != first && op.None? ==> Reread(old(Shared(cookie.value)), cookie.value, d))
                && (d != first && op.Some? ==>
                      && cookie.value in Shared(cookie.value).store && Shared(cookie.value).store[cookie.value].value == d
                      && HasAnswer(old(Shared(cookie.value)), cookie.value, op.value, accessToken, uuid, d)
                      && r.value == accessToken)
      ensures Reliable() && cookie.Some? && HasSession(old(store.server.entries), store.server.clock.now, cookie.value) ==>
                AnswersAsExpected(old(store.server.entries)[cookie.value].value.data, old(idp.refreshTokens),
                                  !Redis.Has(old(store.server.entries), old(store.server.clock.now), LockKey(cookie.value)),
                                  old(store.server.clock.now), store.server.clock.now, accessToken, r)
    {
      var session;
      session, first, idle, refresh, op := GetOrRefresh(cookie, accessToken, uuid);
      d := first;
      if session.Err? {
        return Err(session.error), d, first, idle, refresh, op;
      }
      d := session.value.Value();
      if |session.value.accessToken| == 0 {
        return Err(NoAccessToken), d, first, idle, refresh, op;
      }
      var now := store.server.clock.Now();
      if now > session.value.metadata.expireAt {
        return Err(ExpiredAccessToken), d, first, idle, refresh, op;
      }
      r := Ok(session.value.accessToken);
    }

    // ------------------------------------------------------------ logout

    /** Deletes a session by its identifier, trying again on errors. */
    method DestroyForID(id: string) returns (failed: Option<SessionError>)
      modifies store.server`entries, store.server.clock
      ensures store.server.clock.now >= old(store.server.clock.now)
      ensures var after := Redis.Del(old(store.server.entries), Key(provider, clientID, id));
        if failed.None? then store.server.entries == after
        else failed == Some(Unexpected) && (store.server.entries == after || store.server.entries == old(store.server.entries))
      ensures store.server.reliable ==> failed.None?
    {
      var key := Key(provider, clientID, id);
      assert (set k | k in [key]) == {key};
      var retries: nat :| retries >= 0;
      failed := store.Delete([key]);
      while retries > 0 && failed == Some(Unexpected)
        invariant store.server.clock.now >= old(store.server.clock.now)
        invariant store.server.reliable ==> failed.None?
        invariant var after := Redis.Del(old(store.server.entries), key);
          if failed.None? then store.server.entries == after
          else failed == Some(Unexpected) && (store.server.entries == after || store.server.entries == old(store.server.entries))
      {
        retries := retries - 1;
        failed := store.Delete([key]);
      }
    }

    // The session under k, if there is one, has this key.
    ghost predicate Keyed(k: string)
      reads store.server
    {
      k in store.server.entries && store.server.entries[k].value.SessionValue? ==>
        Key(provider, clientID, store.server.entries[k].value.data.externalSessionID) == k
    }

    /** Logout: destroys the session that the cookie names, if there is one, through its identifier. */
    method Logout(cookie: Option<string>) returns (idToken: string, failed: Option<SessionError>)
      requires cookie.Some? ==> Keyed(cookie.value)
      modifies store.server`entries, store.server.clock
      ensures forall k :: k in old(store.server.entries) && Some(k) != cookie ==>
                k in store.server.entries && store.server.entries[k] == old(store.server.entries[k])
      ensures store.server.entries.Keys <= old(store.server.entries.Keys)
      ensures failed.None? && |idToken| > 0 ==> cookie.Some? && cookie.value !in store.server.entries
      ensures failed.Some? ==> failed == Some(Unexpected)
      ensures store.server.reliable && cookie.Some?
              && HasSession(old(store.server.entries), store.server.clock.now, cookie.value) ==>
                && failed.None? && cookie.value !in store.server.entries
                && idToken == old(store.server.entries)[cookie.value].value.data.idToken
      ensures cookie.None? || (cookie.value !in old(store.server.entries)) ==>
                idToken == "" && failed.None? && store.server.entries == old(store.server.entries)
    {
      idToken, failed := "", None;
      if cookie.None? {
        return;
      }
      var session := GetForKey(cookie.value);
      if session.Ok? {
        idToken := session.value.idToken;
        failed := DestroyForID(session.value.externalSessionID);
      }
    }

    /** Front-channel logout: destroys the session of a `sid`, and reports whether it did. */
    method LogoutFrontChannel(sid: string) returns (done: bool)
      modifies store.server`entries, store.server.clock
      ensures done ==> |sid| > 0 && Key(provider, clientID, sid) !in store.server.entries
      ensures done ==> Redis.Has(old(store.server.entries), old(store.server.clock.now), Key(provider, clientID, sid))
      ensures store.server.reliable && |sid| > 0
              && HasSession(old(store.server.entries), store.server.clock.now, Key(provider, clientID, sid)) ==>
                done
      ensures forall k :: k in old(store.server.entries) && k != Key(provider, clientID, sid) ==>
                k in store.server.entries && store.server.entries[k] == old(store.server.entries[k])
      ensures store.server.entries.Keys <= old(store.server.entries.Keys)
    {
      if |sid| == 0 {
        return false;
      }
      var session := GetForKey(Key(provider, clientID, sid));
      if session.Err? {
        return false;
      }
      var failed := DestroyForID(sid);
      done := failed.None?;
    }
  }
}
