/**
  The two session stores and the lock (pkg/session/store_memory.go,
  store_redis.go, lock.go), as objects with state, and their agreement.
 */
module SessionStores {
  import opened SessionTime
  import opened SessionData
  import opened SessionKeys
  import opened Wrappers
  import Redis

  // Sessions and locks live in one keyspace.
  datatype Value = SessionValue(data: Data) | LockValue(owner: nat)

  /** The Redis server: a keyspace, and the clock by which it expires entries. */
  class RedisServer {
    var entries: Redis.Keyspace<Value>
    const clock: Clock
    const reliable: bool  // every command reaches the server, and its answer arrives
    var nextOwner: nat  // the lock library's random values never repeat

    constructor (clock: Clock, reliable: bool)
      ensures this.clock == clock && this.reliable == reliable && entries == map[] && nextOwner == 0
    {
      this.clock, this.reliable := clock, reliable;
      entries, nextOwner := map[], 0;
    }

    // Whether a command reaches the server, and whether its answer arrives.
    method Responds() returns (reached: bool, answered: bool)
      ensures reliable ==> reached && answered
    {
      reached, answered := *, *;
      if reliable {
        return true, true;
      }
    }
  }

  // There is a session under k.
  predicate HasSession(entries: Redis.Keyspace<Value>, now: Time, k: string) {
    Redis.Has(entries, now, k) && entries[k].value.SessionValue?
  }

  /** Any command may fail, before or after it took effect, unless the server is reliable. */
  class RedisStore {
    const server: RedisServer

    constructor (server: RedisServer)
      ensures this.server == server
    {
      this.server := server;
    }

    method Read(key: string) returns (r: Result<Data, SessionError>)
      modifies server.clock
      ensures server.clock.now >= old(server.clock.now)
      ensures r.Ok? ==> Redis.Get(server.entries, server.clock.now, key) == Some(SessionValue(r.value))
      ensures r == Err(KeyNotFound) ==> Redis.Get(server.entries, server.clock.now, key) == None
      ensures r.Err? ==> r.error in {KeyNotFound, Unexpected}
      ensures server.reliable && r == Err(Unexpected) ==>
                Redis.Has(server.entries, server.clock.now, key) && server.entries[key].value.LockValue?
    {
      var now := server.clock.Now();
      var reached: bool := *;
      if !reached && !server.reliable {
        return Err(Unexpected);
      }
      var found: Option<Value> := Redis.Get(server.entries, now, key);
      match found
      case None => r := Err(KeyNotFound);
      case Some(SessionValue(d)) => r := Ok(d);
      case Some(LockValue(_)) => r := Err(Unexpected);  // not a session: it does not scan
    }

    method Write(key: string, value: Data, expiration: int) returns (r: Option<SessionError>)
      modifies server`entries, server.clock
      ensures server.clock.now >= old(server.clock.now)
      ensures var after := Redis.Set(old(server.entries), server.clock.now, key, SessionValue(value), expiration);
        if r.None? then server.entries == after
        else r.value == Unexpected && (server.entries == after || server.entries == old(server.entries))
      ensures server.reliable ==> r.None?
    {
      var now := server.clock.Now();
      var reached, answered := server.Responds();
      if reached {
        server.entries := Redis.Set(server.entries, now, key, SessionValue(value), expiration);
      }
      r := if reached && answered then None else Some(Unexpected);
    }

    // Deleting a key that is not there is not an error.
    method Delete(keys: seq<string>) returns (r: Option<SessionError>)
      modifies server`entries, server.clock
      ensures server.clock.now >= old(server.clock.now)
      ensures var after := old(server.entries) - (set k | k in keys);
        if r.None? then server.entries == after
        else r.value == Unexpected && (server.entries == after || server.entries == old(server.entries))
      ensures server.reliable ==> r.None?
    {
      var _ := server.clock.Now();
      var reached, answered := server.Responds();
      if reached {
        server.entries := server.entries - (set k | k in keys);
      }
      r := if reached && answered then None else Some(Unexpected);
    }

    // A read, and at some later time a set that keeps the deadline.
    method Update(key: string, value: Data) returns (r: Option<SessionError>)
      modifies server`entries, server.clock
      ensures server.clock.now >= old(server.clock.now)
      ensures var after := Redis.SetKeepTtl(old(server.entries), server.clock.now, key, SessionValue(value));
        match r
        case None =>
          && server.entries == after
          && exists t :: old(server.clock.now) <= t <= server.clock.now && Redis.Has(old(server.entries), t, key)
        case Some(Unexpected) => server.entries == after || server.entries == old(server.entries)
        case Some(e) => e == KeyNotFound && server.entries == old(server.entries)
      ensures server.reliable && HasSession(old(server.entries), server.clock.now, key) ==> r.None?
      ensures server.reliable && !Redis.Has(old(server.entries), old(server.clock.now), key) ==> r == Some(KeyNotFound)
    {
      var found := Read(key);
      if found.Err? {
        return Some(found.error);
      }
      ghost var seen := server.clock.now;
      var now := server.clock.Now();
      var reached, answered := server.Responds();
      if reached {
        server.entries := Redis.SetKeepTtl(server.entries, now, key, SessionValue(value));
      }
      assert Redis.Has(old(server.entries), seen, key);
      r := if reached && answered then None else Some(Unexpected);
    }
  }

  /** The map behind a mutex.  Expirations are ignored. */
  class MemoryStore {
    var sessions: map<string, Data>

    constructor ()
      ensures sessions == map[]
    {
      sessions := map[];
    }

    method Read(key: string) returns (r: Result<Data, SessionError>)
      ensures Replied(r) == MemoryReply(sessions, Command.Read(key))
      ensures r.Err? ==> r.error == KeyNotFound
    {
      r := if key in sessions then Ok(sessions[key]) else Err(KeyNotFound);
    }

    method Write(key: string, value: Data, expiration: int) returns (r: Option<SessionError>)
      modifies this
      ensures r.None? && sessions == MemoryNext(old(sessions), Command.Write(key, value, expiration))
    {
      sessions := sessions[key := value];
      r := None;
    }

    method Delete(keys: seq<string>) returns (r: Option<SessionError>)
      modifies this
      ensures r.None? && sessions == MemoryNext(old(sessions), Command.Delete(keys))
    {
      for i := 0 to |keys|
        invariant sessions == old(sessions) - (set k | k in keys[..i])
      {
        assert keys[..i + 1] == keys[..i] + [keys[i]];
        sessions := sessions - {keys[i]};
      }
      assert keys[..|keys|] == keys;
      r := None;
    }

    method Update(key: string, value: Data) returns (r: Option<SessionError>)
      modifies this
      ensures if key in old(sessions)
              then r.None? && sessions == MemoryNext(old(sessions), Command.UpdateSet(key, value))
              else r == Some(KeyNotFound) && sessions == old(sessions)
    {
      var found := Read(key);
      if found.Err? {
        return Some(found.error);
      }
      sessions := sessions[key := value];
      r := None;
    }
  }

  /** The Redis lock of one session key: the value it holds the lock with, if any. */
  class RedisLock {
    const server: RedisServer
    const key: string
    var owner: Option<nat>

    constructor (server: RedisServer, key: string)
      ensures this.server == server && this.key == key && owner == None
    {
      this.server, this.key := server, key;
      owner := None;
    }

    method Acquire(duration: int) returns (r: Option<SessionError>)
      modifies this`owner, server`entries, server`nextOwner, server.clock
      ensures server.clock.now >= old(server.clock.now)
      ensures server.nextOwner >= old(server.nextOwner)
      ensures var free := !Redis.Has(old(server.entries), server.clock.now, LockKey(key));
        var after := Redis.SetIfAbsent(old(server.entries), server.clock.now, LockKey(key),
                                       LockValue(old(server.nextOwner)), duration);
        match r
        case None => free && owner == Some(old(server.nextOwner)) && server.entries == after
                     && server.nextOwner == old(server.nextOwner) + 1
        case Some(LockNotAcquired) => !free && owner == old(owner) && server.entries == old(server.entries)
        case Some(e) => e == Unexpected && owner == old(owner)
                        && (server.entries == after || server.entries == old(server.entries))
      ensures server.reliable ==> r != Some(Unexpected)
    {
      var now := server.clock.Now();
      var mine := server.nextOwner;
      server.nextOwner := mine + 1;
      var free := !Redis.Has(server.entries, now, LockKey(key));
      var reached, answered := server.Responds();
      if reached {
        server.entries := Redis.SetIfAbsent(server.entries, now, LockKey(key), LockValue(mine), duration);
      }
      if !reached || !answered {
        return Some(Unexpected);
      }
      if !free {
        return Some(LockNotAcquired);
      }
      owner := Some(mine);
      r := None;
    }

    // Called by a process whose Acquire has succeeded.
    method Release() returns (r: Option<SessionError>)
      requires owner.Some?
      modifies server`entries, server.clock
      ensures server.clock.now >= old(server.clock.now)
      ensures var after := Redis.DelIfEqual(old(server.entries), server.clock.now, LockKey(key), LockValue(owner.value));
        if r.None? then server.entries == after
        else server.entries == after || server.entries == old(server.entries)
      ensures server.reliable ==> server.entries == Redis.DelIfEqual(old(server.entries), server.clock.now, LockKey(key), LockValue(owner.value))
      ensures server.reliable && r.Some? ==>
                Redis.Get(old(server.entries), server.clock.now, LockKey(key)) != Some(LockValue(owner.value))
    {
      var now := server.clock.Now();
      var reached, answered := server.Responds();
      var held := Redis.Get(server.entries, now, LockKey(key)) == Some(LockValue(owner.value));
      if reached {
        server.entries := Redis.DelIfEqual(server.entries, now, LockKey(key), LockValue(owner.value));
      }
      r := if reached && answered && held then None else Some(Unexpected);
    }
  }

  /**
    Lock and session commands do not interfere in the shared keyspace, for
    session IDs that do not end in ".lock": obtaining or releasing the lock of
    one session leaves what is read of any session as it was.
   */
  lemma LocksLeaveSessionsAlone(entries: Redis.Keyspace<Value>, now: Time, later: Time, owner: nat, duration: int,
                                p: string, c: string, id: string, id': string)
    requires ':' !in p && ':' !in c && !EndsWith(id, LOCK_SUFFIX)
    ensures var k, l := Key(p, c, id), LockKey(Key(p, c, id'));
      && Redis.Get(Redis.SetIfAbsent(entries, now, l, LockValue(owner), duration), later, k) == Redis.Get(entries, later, k)
      && Redis.Get(Redis.DelIfEqual(entries, now, l, LockValue(owner)), later, k) == Redis.Get(entries, later, k)
  {
    LockKeysApart(p, c, id, p, c, id');
  }

  // ---------------------------------------------------------- agreement

  // The commands of the store interface, with the two halves of Update apart.
  datatype Command =
    | Read(key: string)
    | Write(key: string, value: Data, expiration: int)
    | Delete(keys: seq<string>)
    | UpdateRead(key: string)
    | UpdateSet(key: string, value: Data)

  datatype Reply = Found(data: Data) | NotFound | Done

  function Replied(r: Result<Data, SessionError>): Reply {
    if r.Ok? then Found(r.value) else NotFound
  }

  function MemoryReply(m: map<string, Data>, c: Command): Reply {
    match c
    case Read(k) => if k in m then Found(m[k]) else NotFound
    case UpdateRead(k) => if k in m then Found(m[k]) else NotFound
    case _ => Done
  }

  function MemoryNext(m: map<string, Data>, c: Command): map<string, Data> {
    match c
    case Read(_) => m
    case Write(k, d, _) => m[k := d]
    case Delete(ks) => m - (set k | k in ks)
    case UpdateRead(_) => m
    case UpdateSet(k, d) => m[k := d]
  }

  function RedisReply(ks: Redis.Keyspace<Data>, now: Time, c: Command): Reply {
    match c
    case Read(k) => (match Redis.Get(ks, now, k) case None => NotFound case Some(d) => Found(d))
    case UpdateRead(k) => (match Redis.Get(ks, now, k) case None => NotFound case Some(d) => Found(d))
    case _ => Done
  }

  function RedisNext(ks: Redis.Keyspace<Data>, now: Time, c: Command): Redis.Keyspace<Data> {
    match c
    case Read(_) => ks
    case Write(k, d, expiration) => Redis.Set(ks, now, k, d, expiration)
    case Delete(keys) => ks - (set k | k in keys)
    case UpdateRead(_) => ks
    case UpdateSet(k, d) => Redis.SetKeepTtl(ks, now, k, d)
  }

  // A history: commands in the order in which the store sees them, with their times.
  datatype Timed = Timed(at: Time, command: Command)

  function MemoryRun(cs: seq<Timed>): map<string, Data> {
    if cs == [] then map[] else MemoryNext(MemoryRun(cs[..|cs| - 1]), cs[|cs| - 1].command)
  }

  function RedisRun(cs: seq<Timed>): Redis.Keyspace<Data> {
    if cs == [] then map[]
    else RedisNext(RedisRun(cs[..|cs| - 1]), cs[|cs| - 1].at, cs[|cs| - 1].command)
  }

  function Contents(ks: Redis.Keyspace<Data>): map<string, Data> {
    map k | k in ks :: ks[k].value
  }

  // No entry has run out when a command arrives.
  ghost predicate NothingExpires(cs: seq<Timed>) {
    forall i, k :: 0 <= i < |cs| && k in RedisRun(cs[..i]) ==> Redis.Has(RedisRun(cs[..i]), cs[i].at, k)
  }

  lemma {:induction false} SameContents(cs: seq<Timed>)
    ensures Contents(RedisRun(cs)) == MemoryRun(cs)
  {
    if cs != [] {
      SameContents(cs[..|cs| - 1]);
    }
  }

  /**
    Both stores refine one map from keys to sessions: whatever the interleaving
    of commands, and of the halves of updates, they hold the same sessions, and
    as long as nothing runs out they give the same replies.
   */
  lemma StoresAgree(cs: seq<Timed>, i: nat)
    requires i < |cs| && NothingExpires(cs)
    ensures RedisReply(RedisRun(cs[..i]), cs[i].at, cs[i].command) == MemoryReply(MemoryRun(cs[..i]), cs[i].command)
    ensures Contents(RedisRun(cs[..i])) == MemoryRun(cs[..i])
  {
    SameContents(cs[..i]);
    var ks := RedisRun(cs[..i]);
    assert forall k :: k in ks <==> k in Contents(ks);
  }

  /** The exact condition at one command: the replies differ only for an entry that has run out. */
  lemma RepliesDifferIff(cs: seq<Timed>, c: Timed)
    ensures RedisReply(RedisRun(cs), c.at, c.command) == MemoryReply(MemoryRun(cs), c.command) <==>
            ((c.command.Read? || c.command.UpdateRead?) && c.command.key in RedisRun(cs) ==>
               Redis.Has(RedisRun(cs), c.at, c.command.key))
  {
    SameContents(cs);
    var ks := RedisRun(cs);
    assert forall k :: k in ks <==> k in Contents(ks);
  }
}
