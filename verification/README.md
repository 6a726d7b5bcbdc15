# Wonderwall sessions, verified in Dafny

A model of how wonderwall keeps its sessions: the refresh protocol that any
number of requests and pods run over one store, the time arithmetic that decides
its branches, the stores and the lock, the identity provider it talks to, the
login flow that creates sessions, and two small loops around it (ingress matching
and the automatic retry after an error).

`dafny verify dfyconfig.toml` checks the project.

## How it is put together

| file | what it holds |
|---|---|
| `session_time.dfy`, `session_data.dfy`, `session_keys.dfy` | cooldown, leeway, expiry, timeouts, reported seconds; session data and the handler's decisions; store keys, lock keys, session IDs |
| `redis.dfy`, `session_store.dfy` | the Redis commands on a keyspace with deadlines; the Redis store, the memory store and the Redis lock as objects; agreement of the two stores |
| `provider.dfy`, `provider_runs.dfy`, `login.dfy` | the identity provider with its three tables; any number of requests to it; authorization URLs, cookies, the callback, and any number of interleaved logins |
| `protocol.dfy` | the protocol as a step machine: clock, store, lock table, live refresh tokens, and one program counter with local variables per request |
| `protocol_exclusion.dfy` | leased locks: mutual exclusion, late releases |
| `protocol_data.dfy` | what a request's variables say at each point, and their agreement with the store |
| `protocol_history.dfy` | one session over a whole run: frame, monotonicity, refresh rate, absolute lifetime |
| `protocol_tokens.dfy` | refresh tokens of the composed system: which are live, which are spent, who counts on them |
| `protocol_refinement.dfy` | every interleaved run against a sequential run of atomic refreshes |
| `protocol_inactivity.dfy`, `protocol_thaw.dfy`, `protocol_stale_login.dfy` | when inactivity is absorbing, that it is so in no other case, and a run to such a case |
| `protocol_access.dfy`, `protocol_inactive_token.dfy` | what `GetAccessToken` hands out, and when that is the token of an inactive session; keys and logout |
| `protocol_outcomes.dfy` | how requests end: in a bounded number of steps, never stuck, and with no error without a cause |
| `protocol_chain.dfy`, `protocol_witness.dfy` | logins and refreshes that meet no obstacle; a run that meets all hypotheses together, and two that leave them |
| `composed_runs.dfy` | the protocol and the provider run together |
| `session_handler.dfy` | the handler as an object with mutable records; each of its refreshes is at most one atomic step of the sequential system |
| `ingress.dfy`, `error_retry.dfy` | ingress parsing and matching for every map iteration order; the bounded retry |

A run of the protocol is a sequence of events from the empty world. `Enabled`
says which events can happen, `Next` what they do, `Run` where a sequence of them
ends. One event is one clock reading with the decision taken on it, or one store,
lock or provider command. Errors, lost answers and requests that stop for ever
are part of the machine.

The local program of a request is `Advance` (pkg/session/handler.go:62-92 for a
login, 131-151 and 199-229 for a proxied request, 251-346 for a refresh);
`Answer` is what it ends with. `SequentialRefresh` is the same refresh written as
one step, and `Handler.Refresh` is it once more as imperative code. In the
sequential run a refresh stands where the provider granted it, and counts as
kept once its update has taken effect.

### Hypotheses

They are predicates on the steps of a run, each for one key `k`, so that what
other sessions go through does not matter to a result on one session. They are
named wherever a theorem uses them, and `ProtocolWitness.ProperRefreshExists`
gives a run that meets them all for all keys.

- `InLease`: a process of `k` acts in its critical section only while its lock's
  ten seconds last. It may stop there for ever. The code does not enforce this.
  Ownership of unexpired locks, late releases, absolute lifetime, key placement,
  access tokens and the exact condition for inactivity do not need it.
- `NoIntrusion`: no login writes, no logout deletes and no expiry removes the
  session of `k` between the re-read and the end of the update of a refresh on it
  that is within its lease. `Disciplined` runs meet `InLease` and `NoIntrusion`
  at every step. Frame, monotonicity and refresh rate need `InLease` only.
- `SingleUseCodes`: an authorization code is redeemed once. The provider modelled
  here does not enforce that (`Provider.CodeReplayRevivesToken`,
  `ProviderRuns.AcceptedCodesStay`). The results on live refresh tokens use it,
  for the codes of the session in question (`SingleUseFor`), and the exact
  condition for inactivity, for what comes after. In terms of the provider's own
  tables it means that no code is redeemed again (`ComposedRuns.UsesCodesOnceIff`).
- `NoLoss`: answers to grants on `k` arrive, and the update that follows is
  neither given up nor late. `Orderly` runs are disciplined, use codes once and
  lose nothing.
- `WritesUnspent`: no login writes a session of `k` whose refresh token has been
  spent. `ProtocolTokens.TokensStayLiveIff` shows that token liveness needs
  exactly this.

### Assumptions

- Time is an integer number of nanoseconds on one clock that never runs
  backwards. Overflow of 64-bit durations is not modelled.
- Whole seconds are integer division. The program goes through a floating-point
  number, which gives the same result below 2^24 seconds.
- `MaxLifetime` is a whole number of milliseconds, as Redis deadlines are.
- The lock library sets a key if absent, with a random value and a deadline, and
  releases it by comparing the value before deleting.
- A retry helper runs its closure one or more times and stops at success or at an
  error that is not retryable. Nothing depends on how often.
- Commands and requests can get lost, and so can the answers to them. Of a Redis
  server or a provider that is `reliable` it is assumed that none does, and of a
  request that it tries the lock at least once. What must then succeed is a
  second half of the contracts of the handler; the first half holds without.
- Encrypting and decrypting is the identity, and a cookie is one the program made.
- The S256 transformation is an arbitrary function, injective where stated.
- Random values (UUIDs, secrets, lock values) do not repeat.

### Findings

- "Once a session has timed out and no process is between its timeout check and
  its update, it stays as it is" is not true, whichever the store: `Create` takes
  no lock, so that a login which is slow to write can put a timed out session in
  the place of one that a refresh has just re-read
  (`ProtocolStaleLogin.StaleLoginThawsInactiveSession`). As long as codes are
  used once, it is true exactly when no process holds a re-read copy that can
  still pass the checks of a refresh and whose refresh token is live
  (`ProtocolThaw.StaysInactiveIff`). When nothing has intruded on the session,
  and under the Redis lock, none does (`ProtocolInactivity.FrozenUnderLock`).
- A token of an inactive session can be handed out. After its re-read, `Refresh`
  returns a session that cannot be refreshed before it asks whether it has timed
  out: one that is on cooldown, or one that a login without a refresh token has
  put in its place. This can happen exactly when the inactivity timeout is
  shorter than the longest cooldown of one minute, or logins may lack a refresh
  token (`ProtocolInactiveToken.CanHandOutInactiveIff`). No lower bound is put on
  the configured timeout; its default is half an hour.
- `Create` writes again when it does not hear of its write. If the session has
  been refreshed in between, that brings back a token which has been spent
  (`ProtocolWitness.RepeatedWriteBringsSpentTokenBack`). Stored tokens stay live
  exactly when that does not happen (`ProtocolTokens.TokensStayLiveIff`), and only
  a repeated write can do it (`ProtocolTokens.SpentWritesAreRepeats`).
- An update whose entry was deleted or ran out between its read and its set
  leaves a session without any deadline
  (`ProtocolWitness.LogoutDuringUpdateLeavesOrphan`). An entry has no deadline
  exactly when that has happened since its key was last written
  (`ProtocolHistory.AbsoluteLifetime`).
- The provider accepts a code again and again, and a replayed code brings back
  its first refresh token. A used token stays refused exactly when its code is
  not redeemed again (`ProviderRuns.SpentTokenRefusedIff`).
- A session ID ending in ".lock" has a key that is another session's lock key,
  and only such IDs do (`SessionKeys.SessionKeyIsLockKeyIff`). Two clients can
  share keys exactly when the provider and client part of one's keys starts with
  the other's, which takes a colon in a name (`SessionKeys.KeysMeetIff`).
- Two ingresses that differ only in their scheme make the chosen ingress depend
  on map iteration order (`Ingresses.SchemesAreAmbiguous`); the choice is
  independent of it exactly when all matching ingresses are the same.
- A token that is dead on arrival has no instant at which an automatic refresh is
  due and the token still good (`SessionTime.RefreshWindowReachableIff`).
- The repository's README says sessions refresh at the earliest five minutes
  before expiry. The code also waits for the cooldown, so for short-lived tokens
  it is the later of the two (`SessionTime.RefreshWindow`).

## Model

| member | source | states |
|---|---|---|
| ProtocolRefinement.Refinement | pkg/session/handler.go:252-346 | when all sessions are disciplined, in every reachable state, replaying the run's operations one by one, each refresh as one atomic step, gives the run's store and the provider's tokens; no replayed refresh is turned away, and refreshes of a key come in lock order; processes may crash anywhere |
| ProtocolRefinement.NothingGoesMissing | pkg/session/handler.go:314-342 | when moreover no answer and no update for a key is lost, every granted refresh of that key is stored or still in flight |
| ProtocolRefinement.LandReplay | pkg/session/handler.go:339-342 | an update that takes effect late gives the same as the atomic refresh placed at its grant, whatever happened to other keys in between |
| ProtocolRefinement.CoupledAlways | pkg/session/handler.go:299-342 | at every moment the two systems have the same store and the same tokens, and the operation of every refresh that can still land waits to be completed |
| ProtocolRefinement.CouplingStep | pkg/session/handler.go:314-342 | every step keeps the coupling |
| ProtocolRefinement.RefreshIsEffective | pkg/session/handler.go:299-312 | a refresh past its checks would pass them again on what is stored now |
| ProtocolRefinement.CouplingRepeat | pkg/session/handler.go:354-362 | an update repeated after it took effect changes nothing |
| ProtocolRefinement.LockOrderAlways | pkg/session/lock.go:41-52 | refreshes of a key carry strictly increasing lock values, and none is later than the lock of a process in its section and lease |
| ProtocolTokens.TokensStayLiveIff | pkg/mock/openid.go:455-516 | for a session that is disciplined, uses its codes once and loses nothing, whatever other sessions do: between grants and updates its stored refresh token is live at the rotating provider, throughout a run, exactly when no login writes a spent token |
| ProtocolTokens.StoredTokensAreLive | pkg/mock/openid.go:455-516 | it is so in every reachable state when no login of that session writes a spent token |
| ProtocolTokens.EachOrderlySessionIsLive | pkg/mock/openid.go:455-516 | in one run with single-use codes, it is so of each session for which the hypotheses hold |
| ProtocolTokens.TokensStayPlaced | pkg/mock/openid.go:433-511 | when codes for a session are used once, no token issued for it is held, or can be spent, under another key, in any run |
| ProtocolTokens.SpentWritesAreRepeats | pkg/session/handler.go:83-90 | a login that writes a spent token has written its session before, without an answer |
| ProtocolTokens.TokenLedger | pkg/mock/openid.go:493-511 | a token ever issued is live or spent, whatever is lost or crashes, and when codes are used once never both |
| ProtocolTokens.NoRefreshIsRefused | pkg/session/handler.go:314-329 | under the same hypotheses on its session, a process in lease that asks for new tokens is never refused because its token was spent |
| ProtocolTokens.TokenInvAlways | pkg/mock/openid.go:433-448 | under the same hypotheses on a session, every token that it or its requests count on is live, and no two of them count on the same one; only a login that may write again can hold a spent one |
| ProtocolTokens.TokenInvGrant | pkg/mock/openid.go:493-511 | a grant moves the claim from the stored session to the request with the new token and kills nobody else's token |
| ProtocolTokens.TokenInvStore | pkg/session/store_redis.go:68-82 | an update hands the claim back to the stored session |
| ProtocolExclusion.AtMostOneOwner | pkg/session/lock.go:41-52 | in every reachable state at most one process owns an unexpired lock on a key |
| ProtocolExclusion.MutualExclusionAlways | pkg/session/handler.go:264-342 | with the Redis lock, processes within their leases are alone between acquiring the lock and the end of the update |
| ProtocolExclusion.LateReleaseIsHarmless | pkg/session/lock.go:54-56 | a release, however late, leaves every other owner its lock |
| ProtocolExclusion.ReleaseNeedsAcquire | pkg/session/handler.go:289-297 | only a process whose own Acquire succeeded gets to release |
| ProtocolExclusion.LocksAreTakenAndFreed | pkg/session/lock.go:41-56 | a process that gets the lock owns it for ten seconds, and its release in that time frees it |
| ProtocolExclusion.LockInvAlways | pkg/session/lock.go:28-56 | lock values are distinct and every unexpired lease is backed by its own lock entry, in every run, also when the answer to an Acquire is lost |
| ProtocolData.SaneAlways | pkg/session/handler.go:299-337 | past each check a refresh has passed it at a recorded time, and its copy is exactly the re-read session with the response applied |
| ProtocolData.AgreementAlways | pkg/session/handler.go:299-300 | for a disciplined session, what is stored is what a refresh of it in its section and lease has re-read, or what it wrote |
| ProtocolHistory.StoreEffect | pkg/session/handler.go:331-342 | an entry of a disciplined session changes only by a login's write, a deletion, or a refresh, which keeps the deadline, puts the tokens and the lifetime of the provider's answer in, counts the inactivity timeout anew, and changes nothing else |
| ProtocolHistory.UpdatesStoreTheAnswer | pkg/session/handler.go:331-342 | in every run, whoever intrudes: an update leaves in the store the re-read session with the access token, refresh token and lifetime of the provider's answer, renewed off cooldown, and touches no other entry |
| ProtocolHistory.LoginsWriteNewSessions | pkg/session/handler.go:63-92 | in every run, what a login has to write has the tokens and the identifier it was given, is created and refreshed at one clock reading, expires the tokens' lifetime after it and ends MaxLifetime after it, and times out as configured after a later reading |
| ProtocolHistory.SessionFrame | pkg/session/handler.go:331-342 | for either store, from a moment when no refresh of the key is under way and while no login writes it, over any number of refreshes, deletions, expiries and crashes: the identity fields, CreatedAt and EndsAt stay, and RefreshedAt and TimeoutAt never go back, if processes of the key act within their leases and granted lifetimes are not negative |
| ProtocolHistory.SessionDeadline | pkg/session/store_redis.go:68-82 | for a disciplined session the deadline stays as well |
| ProtocolHistory.RefreshesSpaced | pkg/session/data.go:157-173 | under the same conditions on the key, with the Redis lock, consecutive stored refreshes are at least min(lifetime/2, 1 minute) apart |
| ProtocolHistory.RefreshRateBound | pkg/session/data.go:163-173 | under the same conditions on the key, a window of width W holds at most 1 + W / min(m/2, 1 minute) stored refreshes when all lifetimes granted for it are at least m |
| ProtocolHistory.SpacedCount | pkg/session/data.go:163-173 | counting instants that are a gap apart in a window |
| ProtocolHistory.AbsoluteLifetime | pkg/session/handler.go:69-91 | over any number of refreshes an entry's deadline is its last login write plus MaxLifetime and not before EndsAt; unless an update has found no entry since, and exactly then a read can succeed from that time on |
| ProtocolHistory.DatedAlways | pkg/session/data.go:157-161 | a stored session was not refreshed in the future and has no timeout beyond the configured one, in every run |
| ProtocolInactivity.InactivityIsAbsorbing | pkg/session/handler.go:310-342 | for either store, a frozen inactive session is unchanged until a login writes its key, or gone, and gone for good; what is assumed of the continuation, single-use codes or leases, is an argument |
| ProtocolThaw.StaysInactiveIff | pkg/session/handler.go:299-342 | for either store, and every continuation with single-use codes, an inactive session stays as it is until a login writes its key, or is deleted, exactly when no process holds a copy that can pass the checks and has a live refresh token |
| ProtocolThaw.Thaws | pkg/session/handler.go:299-342 | a process with such a copy has a continuation, without any login, in which it changes the inactive session |
| ProtocolInactivity.CanPassIff | pkg/session/handler.go:306-312 | a copy can pass the checks at some time exactly when it can at the first instant it is off cooldown |
| ProtocolInactivity.ReadersOfInactiveFail | pkg/session/handler.go:200-213 | every GetOrRefresh that has not read a frozen session yet ends in an error |
| ProtocolInactivity.FrozenUnderLock | pkg/session/handler.go:299-312 | for a disciplined session on the Redis store, timed out and nobody past the timeout check is frozen, for processes within their leases |
| ProtocolStaleLogin.StaleLoginThawsInactiveSession | pkg/session/handler.go:63-92 | for either store, a run to an inactive session with nobody past the timeout check, and a continuation without logins that refreshes it |
| ProtocolAccess.AccessTokensAreSound | pkg/session/handler.go:132-229 | a returned token is non-empty and unexpired at the last check; it is that of the session first read, active then; or of the session re-read, when that cannot be refreshed; or the access token of the provider's answer to an own refresh of a session that was active, as stored; refreshes start only when due, and failed ones fall back to the session first read |
| ProtocolAccess.DueSessionsAreRefreshed | pkg/session/handler.go:215-219 | a session that is due at the first reading of the decision is refreshed, one that is not due at the last is handed on as it was read, and nothing else can happen |
| ProtocolAccess.ProxiedRequestsEnd | pkg/session/handler.go:132-229 | which outcomes of a refresh are errors, and that otherwise the token is handed out exactly when it is non-empty and not expired, with the error for each other case |
| ProtocolInactiveToken.CanHandOutInactiveIff | pkg/session/handler.go:299-312 | some run hands out a token of a session that had timed out when read exactly when the inactivity timeout is shorter than a minute, to the clock's resolution, or logins may lack a refresh token |
| ProtocolInactiveToken.InactiveTokenGuard | pkg/session/handler.go:305-312 | it happens in one branch only: the re-read session has timed out and cannot be refreshed |
| ProtocolInactiveToken.ShortTimeoutsDoNot | pkg/session/handler.go:299-312 | for every shorter timeout, a run in which it happens although all logins bring refresh tokens |
| ProtocolInactiveToken.UnrefreshableSessionsDoNot | pkg/session/handler.go:299-312 | for every timeout, a run in which it happens with a login that brings none |
| ProtocolAccess.FirstReadIsKept | pkg/session/handler.go:206-226 | nothing that happens to a request changes the session it first read; `Handler.Refresh` shows the same of the mutable record |
| ProtocolAccess.KeyedAlways | pkg/session/handler.go:63-98 | in every reachable state each session sits under the key of its own identifier |
| ProtocolAccess.LogoutDeletesTheNamedSession | pkg/handler/api/logout/logout.go:42-50 | logout deletes exactly the entry the cookie names |
| ProtocolAccess.FrontChannelLogoutDeletesTheSid | pkg/handler/api/logoutfrontchannel/logoutfrontchannel.go:39-47 | front-channel logout deletes exactly the sessions with that sid: those of logins whose id_token carried it are among them, those of logins whose id_token carried another one are not |
| ProtocolAccess.FromLoginAlways | pkg/session/handler.go:63-92 | in every reachable state each session comes from a login of the run and has the identifier derived from its id_token and parameters |
| ProtocolOutcomes.WorkIsBounded | pkg/session/handler.go:131-375 | in every run, whatever others do, a request takes at most 16 events, apart from those it repeats because a write or an update was not heard of |
| ProtocolOutcomes.RequestsCanEnd | pkg/session/handler.go:131-375 | from every reachable state, every request can end by itself, whatever it finds and whatever locks are held |
| ProtocolOutcomes.SetsFollowReads | pkg/session/store_redis.go:68-82 | in every run, a request that is to set an entry has found it with its last event, also when its update is a repeated one |
| ProtocolOutcomes.ErrorsHaveCauses | pkg/session/handler.go:131-375 | in every run, a login ends with the session it has written, another request with an outcome, and an error tells what has happened to it: key-not-found that there was no session to read at some moment, inactivity that the session first read or re-read had timed out, invalid state that the provider has denied it, no or an expired token that the session to be handed on has it so, and any other error a fault |
| ProtocolOutcomes.CausedAlways | pkg/session/handler.go:131-375 | the same at every moment for the outcome of the refresh, which is there exactly from its end on |
| ProtocolWitness.ProperRefreshExists | pkg/session/handler.go:252-346 | a run within all hypotheses, for all sessions, in which a refresh takes effect |
| ProtocolWitness.RepeatedWriteBringsSpentTokenBack | pkg/session/handler.go:83-90 | a run in which a write repeated after a refresh leaves the session with a dead token |
| ProtocolWitness.LogoutDuringUpdateLeavesOrphan | pkg/session/store_redis.go:68-82 | a run in which a logout during an update leaves an entry without a deadline |
| SessionTime.CooldownLength | pkg/session/data.go:163-173 | the cooldown lasts min(lifetime/2, 1 minute) |
| SessionTime.RefreshWindow | pkg/session/data.go:137-181 | ShouldRefresh against the due instant max(cooldown, expiry - 5 minutes), for three readings in clock order and exactly for one |
| SessionTime.RefreshWindowStaysOpen | pkg/session/data.go:175-181 | once due, always due |
| SessionTime.RefreshWindowReachable | pkg/session/data.go:137-181 | a token with a positive lifetime has an instant at which it is due and not expired |
| SessionTime.RefreshWindowReachableIff | pkg/session/data.go:137-181 | and only such a token has |
| SessionTime.ReportedTimesConsistent | pkg/session/data.go:203-245 | the reported figures of one instant are the floors of the times left, and agree with each other and with the decisions taken at it: which session is active, timed out, on cooldown, or not to be refreshed automatically |
| SessionTime.ToSecondsIsFloor | pkg/session/data.go:276-283 | whole seconds rounded down, never negative |
| SessionTime.HalfTruncates | pkg/session/data.go:167-170 | half of a duration is rounded toward zero |
| SessionTime.CooldownAtMost | pkg/session/data.go:163-173 | for any lifetime, negative ones included, the cooldown is over a minute after the refresh at the latest |
| SessionTime.Metadata.New | pkg/session/data.go:123-135 | created and refreshed at the clock reading made, expiring and ending the given durations after it, without a timeout |
| SessionTime.Metadata.Refresh | pkg/session/data.go:157-161 | RefreshedAt and ExpireAt follow the clock reading, everything else stays |
| SessionTime.Metadata.ExtendTimeout | pkg/session/data.go:187-201 | the timeout follows the clock reading, everything else stays |
| SessionData.ShouldRefreshImpliesCanRefresh | pkg/session/handler.go:369-375 | a session due for refresh passes the guard of Refresh from then on |
| SessionData.ShouldRefreshIsDue | pkg/session/handler.go:369-375 | the decision, made with three readings: what is due at the first is refreshed, and what is refreshed is due at the last; due means refreshing is on, a refresh token is there, the cooldown is over and less than five minutes are left |
| SessionData.RefreshIsRenewal | pkg/session/handler.go:331-337 | applying a response puts its access token, refresh token and lifetime in, counted from the renewal, extends the timeout, and changes nothing else; not before the cooldown is over |
| SessionKeys.NewSessionID | pkg/session/handler.go:381-408 | which of sid, session_state and a generated value is returned, and when a missing one is an error |
| SessionKeys.KeyInjective | pkg/session/handler.go:244-249 | distinct (provider, client, session) triples have distinct keys when provider and client have no colon |
| SessionKeys.KeysMeetIff | pkg/session/handler.go:244-249 | two clients can share a key exactly when the prefix of one's keys starts with the other's |
| SessionKeys.KeyCollides | pkg/session/handler.go:244-249 | two clients sharing a key when one has a colon |
| SessionKeys.SessionKeyIsLockKeyIff | pkg/session/lock.go:74-76 | a session key is some session's lock key exactly when the ID ends in ".lock" |
| SessionKeys.LockKeysApart | pkg/session/lock.go:13-15 | across providers and clients, no lock key is the key of a session whose ID does not end in ".lock" |
| SessionKeys.LockKeyInjective | pkg/session/lock.go:74-76 | different keys have different locks |
| Redis.KeepTtlIff | pkg/session/store_redis.go:74-76 | a set that keeps the TTL keeps the deadline exactly when the entry is there, and otherwise stores it for ever |
| Redis.SetLasts | pkg/session/store_redis.go:42-51 | how long a value that was set can be read, for every expiration argument; no other key changes |
| Redis.LockRoundTrip | pkg/session/lock.go:41-56 | a free lock is the caller's alone for its lease; releasing it in that time frees it, and a release with another value, or later, changes nothing |
| SessionStores.StoresAgree | pkg/session/store_memory.go:23-65 | for any interleaving of commands and update halves in which nothing runs out, both stores reply alike and hold the same map |
| SessionStores.SameContents | pkg/session/store_redis.go:42-82 | apart from expiry both stores always hold the same map |
| SessionStores.RepliesDifferIff | pkg/session/store_redis.go:26-40 | replies differ exactly for an entry that has run out |
| SessionStores.LocksLeaveSessionsAlone | pkg/session/lock.go:41-56 | obtaining and releasing locks in the shared keyspace changes what is read of no session |
| SessionStores.RedisStore.Read | pkg/session/store_redis.go:26-40 | the live entry, key-not-found when there is none, or an error |
| SessionStores.RedisStore.Write | pkg/session/store_redis.go:42-51 | the entry with its deadline; after an error it may or may not be there |
| SessionStores.RedisStore.Delete | pkg/session/store_redis.go:53-66 | the keys are gone, and an absent key is not an error |
| SessionStores.RedisStore.Update | pkg/session/store_redis.go:68-82 | key-not-found changes nothing; success means the entry was there at the read and holds the new value |
| SessionStores.MemoryStore.Read | pkg/session/store_memory.go:23-33 | the map's value or key-not-found |
| SessionStores.MemoryStore.Write | pkg/session/store_memory.go:35-41 | the map with the value, whatever the expiration |
| SessionStores.MemoryStore.Delete | pkg/session/store_memory.go:43-52 | the map without the keys |
| SessionStores.MemoryStore.Update | pkg/session/store_memory.go:54-65 | replaces a present key, key-not-found otherwise |
| SessionStores.RedisLock.Acquire | pkg/session/lock.go:41-52 | holds a new value under the lock key if it was free; reports a taken lock without touching it; an error only when the server is not reliable |
| SessionStores.RedisLock.Release | pkg/session/lock.go:54-56 | removes the lock entry only if it still has the holder's value |
| SessionHandler.Handler.Create | pkg/session/handler.go:63-92 | the new session, field by field: identifier and tokens as given, created and refreshed at one reading, expiring the tokens' lifetime and ending MaxLifetime after it; under its key with a deadline counted from a write, or no change and an error; the same entry that the protocol's login writes; with a reliable server it succeeds |
| SessionHandler.Handler.GetForKey | pkg/session/handler.go:160-187 | a new record equal to the live entry, or key-not-found or unexpected; with a reliable server exactly what is there |
| SessionHandler.Handler.AcquireLock | pkg/session/handler.go:264-291 | the lock, free before and now held with a new value and a full lease, or an error, after which it is as before or taken with a value that nobody holds; no session is touched; with a reliable server a free lock is obtained |
| SessionHandler.Handler.RefreshGrant | pkg/openid/client/client.go:141-187 | success is the provider's answer with its access token, refresh token and lifetime, and rotates the token once; a client or server error leaves the provider alone; a lost answer may have rotated it; a reliable provider answers as its table says |
| SessionHandler.Handler.Update | pkg/session/handler.go:348-367 | success means stored with the deadline kept; the ghost result says whether a failed one took effect; with a reliable server it succeeds for a session that is there, and finds no other |
| SessionHandler.Handler.Renew | pkg/session/handler.go:331-342 | the record has the response's access token, refresh token and lifetime, counted from one reading, and the timeout from another; that record is written back |
| SessionHandler.Handler.RefreshLocked | pkg/session/handler.go:299-345 | with the lock held: no effect, or exactly that of one effective atomic refresh, and no other entry changes; what is returned after one is what is stored, with the provider's access token, and otherwise a re-read session that cannot be refreshed; and, when server and provider are reliable, how it ends for which session |
| SessionHandler.Handler.RefreshAlone | pkg/session/handler.go:258-346 | the same between taking and releasing the lock, which is only taken when free; a held lock means an error and no effect, and with a reliable server a lock that is taken is free again at the end |
| SessionHandler.Handler.Refresh | pkg/session/handler.go:252-346 | the record it is given is never changed, the session and the provider change as by at most one atomic refresh, whose result has the provider's access token, a lock is only taken when free and given back or left to run out, and no other entry changes; a session that cannot be refreshed is returned as it is; when server and provider are reliable and the lock is free, a session that can be is refreshed unless it is gone, has timed out or the provider refuses |
| SessionHandler.Handler.GetOrRefresh | pkg/session/handler.go:200-229 | a refresh is tried only when due, and a session handed on without one was not due at some reading; which refresh outcomes are errors and which fall back to the session first read; the shared state changes as by one Refresh; and, when server and provider are reliable, which of these it is for the session that is there |
| SessionHandler.Handler.GetAccessToken | pkg/session/handler.go:132-151 | a token is non-empty and unexpired; without a successful refresh it is the one first read, active then; after one it is the provider's new access token, as stored, or that of a re-read session that cannot be refreshed; and, when server and provider are reliable, the answer for the session that is there |
| SessionHandler.Handler.DestroyForID | pkg/session/handler.go:95-119 | the entry of the ID's key is gone, or an error is reported, which a reliable server never causes |
| SessionHandler.Handler.Logout | pkg/handler/api/logout/logout.go:42-57 | no entry but the one the cookie names changes; when its id_token is passed on, that entry is gone; with a reliable server a session that is there is deleted and its id_token passed on, without an error; and with nothing there, nothing happens |
| SessionHandler.Handler.LogoutFrontChannel | pkg/handler/api/logoutfrontchannel/logoutfrontchannel.go:32-58 | no entry but that of the sid changes, and success means it was there and is gone; with a reliable server a session that is there is deleted |
| Provider.RotationIsSingleUse | pkg/mock/openid.go:493-511 | a used refresh token is refused, its replacement is accepted once in its place, all other grants stay |
| Provider.CodeGrantSucceedsIff | pkg/mock/openid.go:337-390 | exactly what a code grant asks for, and which refusals are server errors or unauthorized |
| Provider.RefreshGrantSucceedsIff | pkg/mock/openid.go:455-491 | exactly what a refresh grant asks for, and which refusals are server errors or unauthorized |
| Provider.CodeReplayRevivesToken | pkg/mock/openid.go:337-516 | a code can be redeemed, its token used, and the code redeemed again, after which the used token is accepted once more |
| ProviderRuns.AcceptedCodesStay | pkg/mock/openid.go:345-390 | a code grant that is accepted once is accepted ever after |
| ProviderRuns.SpentTokenRefusedIff | pkg/mock/openid.go:433-511 | with fresh random values, a used refresh token is refused in every later state exactly when no code is redeemed for it again |
| ProviderRuns.UsedReplacementStaysRefused | pkg/mock/openid.go:493-511 | a used replacement token is refused for ever |
| ProviderRuns.SingleUseCodesIff | pkg/mock/openid.go:433-448 | a code grant is the login of the protocol, and meets its hypothesis on codes exactly when the code was not redeemed before |
| ProviderRuns.GrantsAreFresh | pkg/mock/openid.go:493-511 | a refresh grant is the grant of the protocol, and its token was never seen before |
| ComposedRuns.ProviderIsAsSeen | pkg/mock/openid.go:337-516 | in every run of protocol and provider together, with fresh random values, the protocol's steps are a run of the protocol and its tokens are the provider's |
| ComposedRuns.UsesCodesOnceIff | pkg/mock/openid.go:345-448 | the protocol's hypothesis on codes holds of such a run exactly when no code is redeemed a second time |
| ComposedRuns.StoredTokensAreAccepted | pkg/mock/openid.go:455-511 | in such a run, with no code redeemed a second time, the provider accepts the stored refresh token of every session for which all goes well |
| Provider.CodeTokenInjective | pkg/mock/openid.go:433 | different codes have different first refresh tokens |
| Provider.CodeTokenNotRotated | pkg/mock/openid.go:497 | a first token is never a replacement |
| Provider.IdentityProvider.Authorize | pkg/mock/openid.go:193-307 | exactly which authorization requests are valid; a valid one registers a code with its client, challenge, nonce, level and redirect URI, even when the URI then fails to parse; an invalid one changes nothing |
| Provider.IdentityProvider.TokenCodeGrant | pkg/mock/openid.go:337-453 | tokens for the code's request and its first refresh token, or a refusal without effect |
| Provider.IdentityProvider.RefreshTokenGrant | pkg/mock/openid.go:455-516 | the token is replaced, or a refusal without effect |
| LoginFlow.LoginSafety | pkg/handler/api/logincallback/logincallback.go:40-78 | in every interleaving, a created session's state is its login's, and its code was issued for that cookie's redirect URI, nonce and challenge |
| LoginFlow.CodesServeOneLogin | pkg/mock/openid.go:377-390 | with an injective challenge, a code never creates sessions for two logins |
| LoginFlow.NewLogin | pkg/openid/client/login.go:48-217 | the query and the cookie, field by field: the requested security level or locale if there is one and the default otherwise, nothing when none is configured, and an error exactly when the value is not supported |
| LoginFlow.LoginCompleteness | pkg/openid/client/login_callback.go:55-107 | whatever happens in between, a code issued for a login's own URL is accepted with its cookie while the id_token is valid, and yields the id_token of that request, with the security level the login has asked for |
| LoginFlow.CallbackAcceptedIff | pkg/openid/client/login_callback.go:45-107 | exactly when a callback is accepted, in terms of request, cookie, code and configurations: error, state, code, client, redirect URI, PKCE, nonce, issuer, sid and the two bounds on time; and exactly which are state mismatches and unknown codes |
| LoginFlow.OwnQueryAcceptedIff | pkg/openid/client/login.go:135-217 | the authorization endpoint takes a login's own URL exactly when nothing required is empty, the scopes include openid, and the requested security level and locale, or the defaults, are ones it knows |
| LoginFlow.OwnLoginAlways | pkg/openid/client/login.go:110-217 | URL and cookie of a login carry the same state, nonce, redirect URI, and challenge of the same verifier; the mapped parameters are supported ones |
| LoginFlow.LoginInvAlways | pkg/openid/client/login_callback.go:55-107 | every created session stays bound to its login, and every code carries a challenge, a nonce and a redirect URI |
| LoginFlow.LoginCallback.constructor | pkg/openid/client/login_callback.go:22-43 | fills in a missing redirect URI and nothing else |
| LoginFlow.LoginCallback.RedeemTokens | pkg/openid/client/login_callback.go:70-107 | one attempt: the grant and then the validation of the id_token, or a lost request or answer, which a reliable provider rules out |
| LoginFlow.LoginCallback.RedeemValidTokens | pkg/handler/api/logincallback/logincallback.go:110-124 | tokens come from an attempt that succeeded; with a reliable provider they come exactly when the checks pass |
| LoginFlow.LoginCallback.Handle | pkg/handler/api/logincallback/logincallback.go:56-70 | tokens mean that all checks have passed; an error or a wrong state never reaches the provider; with a reliable provider tokens come exactly when the checks pass |
| Ingresses.ParseIngress | pkg/ingress/ingress.go:117-158 | which URLs are accepted and the error for the others; only trailing slashes of the path are dropped, all of them, and the rest of the URL stays |
| Ingresses.TrimRightSlashes | pkg/ingress/ingress.go:136 | the longest prefix that does not end in a slash |
| Ingresses.ParseIngresses | pkg/ingress/ingress.go:23-40 | the first ingress of each text, or the error of the first that does not parse |
| Ingresses.MapIngresses | pkg/ingress/ingress.go:101-115 | the distinct values, for every iteration order |
| Ingresses.NewIngresses | pkg/ingress/ingress.go:42-47 | hosts, paths and texts of the configured ingresses |
| Ingresses.MatchingPath | pkg/ingress/ingress.go:84-99 | the longest configured path that prefixes the request path |
| Ingresses.MatchingPathUnique | pkg/ingress/ingress.go:84-99 | it does not depend on the order of the paths |
| Ingresses.MatchingIngress | pkg/ingress/ingress.go:62-82 | an ingress of the request's or the forwarded host whose path is the longest configured prefix, the first such in the iteration, and none exactly when there is none |
| Ingresses.MatchingIngressOrderIndependentIff | pkg/ingress/ingress.go:62-82 | the choice is independent of the order exactly when all matching ingresses are the same |
| Ingresses.DistinctIngressesAreUnambiguous | pkg/ingress/ingress.go:66-75 | so it is when no two ingresses share host and path and no other host is forwarded |
| Ingresses.SchemesAreAmbiguous | pkg/ingress/ingress.go:37-39 | two ingresses for which it is not |
| ErrorRetry.RetriesEnd | pkg/handler/error/error.go:79-118 | of consecutive failures exactly the first few are redirected, for any cookie to start with |
| ErrorRetry.ThreeRetriesThenErrors | pkg/handler/error/error.go:21-24 | without a cookie: three redirects, then errors |
| ErrorRetry.AllowanceRunsOut | pkg/handler/error/error.go:159-184 | three minus the cookie's value counts the redirects left |
| ErrorRetry.CookieJar.RespondError | pkg/handler/error/error.go:79-99 | the response, the cookie set, and one redirect fewer to go |

## Left out

- HTTP plumbing, routing, middleware, logging, metrics, configuration flags, templates and start-up.
- AES-GCM, base64, JSON, JWT signatures and SHA-256: library code behind the assumptions above.
- The reverse proxy, auto-login and the loginstatus client: thin decisions on top of `GetAccessToken`.
- Canonical redirects and cookie attributes, and the cookies that handlers clear.
- The ticker and the timeout of the lock loop: a request tries, fails or gives up, any number of times.
- The check for an `acr` claim in an id_token: the provider always sets one.
- A provider that answers a refresh without a new refresh token: the code stores the empty value and the session is not refreshed again.
- Handler.Refresh: is on the Redis store and without interference from other processes; the protocol modules cover interference and the memory store.
- Handler.Logout: requires the session that the cookie names to be under its own key, which `KeyedAlways` shows of every reachable store, and leaves out cookies and the redirect.
- LoginInvAlways: says nothing of who holds the browser session at the provider.
- ReportedTimesConsistent: is for one clock reading, where the program makes several in a row.
- CanHandOutInactiveIff: is for configurations with refreshes and inactivity on, a timeout that is not negative, and sessions that may last a minute.
- StaysInactiveIff: leaves out continuations in which a code is redeemed a second time, which can bring the token of a held copy back.
- RefreshRateBound: asks for lifetimes above one nanosecond, half of which is not zero.
- Metadata.WithTimeout has the body of `Metadata.ExtendTimeout` and no copy of its own.
- How often a retry helper runs its closure, and how long it waits in between.
- The no-op lock has no object: the memory backend of the protocol grants every lock and releases nothing.
