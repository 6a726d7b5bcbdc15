/**
  Session identifiers and store keys: `Key` and `NewSessionID` of
  pkg/session/handler.go, `lockKey` of pkg/session/lock.go.
 */
module SessionKeys {
  import opened Wrappers

  const LOCK_SUFFIX: string := ".lock"

  function Key(provider: string, clientID: string, sessionID: string): string {
    provider + ":" + clientID + ":" + sessionID
  }

  function LockKey(key: string): string {
    key + LOCK_SUFFIX
  }

  predicate EndsWith(s: string, suffix: string) {
    |suffix| <= |s| && s[|s| - |suffix|..] == suffix
  }

  datatype SessionIDError = MissingSid | MissingSessionState

  /**
    The session identifier of a new session: the id_token's `sid` if it has
    one, then the `session_state` parameter (empty when absent), then a
    generated value.  Either of the first two can be mandatory.
   */
  function NewSessionID(sidRequired: bool, sessionStateRequired: bool, sid: Option<string>, sessionState: string,
                        generated: string): (r: Result<string, SessionIDError>)
    ensures sid.Some? ==> r == Ok(sid.value)
    ensures r.Ok? && sidRequired ==> sid == Some(r.value)
    ensures r.Ok? && sid.None? && sessionStateRequired ==> r.value == sessionState != ""
    ensures r.Ok? && sid.None? ==> r.value == (if sessionState != "" then sessionState else generated)
    ensures r.Err? <==> sid.None? && (sidRequired || (sessionState == "" && sessionStateRequired))
  {
    if sid.Some? then Ok(sid.value)
    else if sidRequired then Err(MissingSid)
    else if |sessionState| > 0 then Ok(sessionState)
    else if sessionStateRequired then Err(MissingSessionState)
    else Ok(generated)
  }

  // ---------------------------------------------------------------- laws

  lemma FirstColon(a: string, x: string)
    requires ':' !in a
    ensures var s := a + ":" + x;
      && s[|a|] == ':'
      && (forall i :: 0 <= i < |a| ==> s[i] != ':')
      && s[..|a|] == a && s[|a| + 1..] == x
  {
  }

  /** Two texts split at their first ':' are equal only part by part. */
  lemma SplitUnique(a: string, b: string, x: string, y: string)
    requires ':' !in a && ':' !in b
    requires a + ":" + x == b + ":" + y
    ensures a == b && x == y
  {
    FirstColon(a, x);
    FirstColon(b, y);
    assert |a| == |b|;
  }

  /** Distinct (provider, client, session) triples have distinct keys, whatever the session ID holds. */
  lemma KeyInjective(p: string, c: string, id: string, p': string, c': string, id': string)
    requires ':' !in p && ':' !in p' && ':' !in c && ':' !in c'
    requires Key(p, c, id) == Key(p', c', id')
    ensures p == p' && c == c' && id == id'
  {
    assert Key(p, c, id) == p + ":" + (c + ":" + id);
    assert Key(p', c', id') == p' + ":" + (c' + ":" + id');
    SplitUnique(p, p', c + ":" + id, c' + ":" + id');
    SplitUnique(c, c', id, id');
  }

  // What the keys of all sessions of a client start with.
  function KeyPrefix(p: string, c: string): string {
    p + ":" + c + ":"
  }

  /**
    Two clients, of any providers, can share a key exactly when one's prefix
    starts with the other's.
   */
  lemma KeysMeetIff(p: string, c: string, p': string, c': string)
    ensures (exists id, id' :: Key(p, c, id) == Key(p', c', id')) <==>
            KeyPrefix(p, c) <= KeyPrefix(p', c') || KeyPrefix(p', c') <= KeyPrefix(p, c)
  {
    forall id, id' | Key(p, c, id) == Key(p', c', id')
      ensures KeyPrefix(p, c) <= KeyPrefix(p', c') || KeyPrefix(p', c') <= KeyPrefix(p, c)
    {
      PrefixesOfOne(KeyPrefix(p, c), KeyPrefix(p', c'), Key(p, c, id));
    }
    if KeyPrefix(p, c) <= KeyPrefix(p', c') {
      KeysMeet(p, c, p', c');
    }
    if KeyPrefix(p', c') <= KeyPrefix(p, c) {
      KeysMeet(p', c', p, c);
    }
  }

  lemma PrefixesOfOne(a: string, b: string, s: string)
    requires a <= s && b <= s
    ensures a <= b || b <= a
  {
    if |a| <= |b| {
      assert a == s[..|a|] == b[..|a|];
    } else {
      assert b == s[..|b|] == a[..|b|];
    }
  }

  lemma KeysMeet(p: string, c: string, p': string, c': string)
    requires KeyPrefix(p, c) <= KeyPrefix(p', c')
    ensures exists id :: Key(p, c, id) == Key(p', c', "")
  {
    var id := KeyPrefix(p', c')[|KeyPrefix(p, c)|..];
    assert Key(p, c, id) == Key(p', c', "");
  }

  /** So the condition on client IDs is needed: with a colon in one, two clients can share a key. */
  lemma KeyCollides()
    ensures Key("openid", "a", "b:c") == Key("openid", "a:b", "c")
  {
    assert "a" + ":" + "b:c" == "a:b:c" == "a:b" + ":" + "c";
    assert Key("openid", "a", "b:c") == "openid" + ":" + ("a" + ":" + "b:c");
    assert Key("openid", "a:b", "c") == "openid" + ":" + ("a:b" + ":" + "c");
  }

  lemma SuffixOfConcat(s: string, t: string, suffix: string)
    requires |suffix| <= |t|
    ensures EndsWith(s + t, suffix) <==> EndsWith(t, suffix)
  {
    assert (s + t)[|s + t| - |suffix|..] == t[|t| - |suffix|..];
  }

  lemma LockKeyInjective(k: string, k': string)
    requires LockKey(k) == LockKey(k')
    ensures k == k'
  {
    assert k == LockKey(k)[..|k|] && k' == LockKey(k')[..|k'|];
  }

  /**
    A session's key is the lock key of some session of the same provider and
    client exactly when the session ID ends in ".lock"; in particular session
    keys and lock keys are apart when no session ID does.
   */
  lemma SessionKeyIsLockKeyIff(p: string, c: string, id: string)
    requires ':' !in p && ':' !in c
    ensures (exists id' :: Key(p, c, id) == LockKey(Key(p, c, id'))) <==> EndsWith(id, LOCK_SUFFIX)
  {
    if EndsWith(id, LOCK_SUFFIX) {
      var id' := id[..|id| - |LOCK_SUFFIX|];
      assert id == id' + LOCK_SUFFIX;
      assert Key(p, c, id) == LockKey(Key(p, c, id'));
    }
    forall id' | Key(p, c, id) == LockKey(Key(p, c, id')) ensures EndsWith(id, LOCK_SUFFIX) {
      assert LockKey(Key(p, c, id')) == Key(p, c, id' + LOCK_SUFFIX);
      KeyInjective(p, c, id, p, c, id' + LOCK_SUFFIX);
      SuffixOfConcat(id', LOCK_SUFFIX, LOCK_SUFFIX);
    }
  }

  /** Across providers and clients too: a lock key is never a session key unless the session ID ends in ".lock". */
  lemma LockKeysApart(p: string, c: string, id: string, p': string, c': string, id': string)
    requires ':' !in p && ':' !in c && ':' !in p' && ':' !in c'
    requires !EndsWith(id, LOCK_SUFFIX)
    ensures Key(p, c, id) != LockKey(Key(p', c', id'))
  {
    assert LockKey(Key(p', c', id')) == Key(p', c', id' + LOCK_SUFFIX);
    SuffixOfConcat(id', LOCK_SUFFIX, LOCK_SUFFIX);
    if Key(p, c, id) == Key(p', c', id' + LOCK_SUFFIX) {
      KeyInjective(p, c, id, p', c', id' + LOCK_SUFFIX);
      assert false;
    }
  }
}
