/**
  What happens to one stored session over a whole run: what refreshes may
  change, how often they happen, and when the entry goes away.
 */
module ProtocolHistory {
  import opened SessionTime
  import opened SessionData
  import opened Wrappers
  import Redis
  import opened Protocol
  import opened ProtocolExclusion
  import opened ProtocolData

  // e is the write of a login to key k.
  predicate WritesKey(w: World, e: Event, k: string) {
    e.Write? && e.p in w.procs && w.procs[e.p].key == k
  }

  // e is the update of a refresh of key k that has not taken effect before.
  predicate StoresRefresh(w: World, e: Event, k: string) {
    e.Store? && e.p in w.procs && w.procs[e.p].key == k && !w.procs[e.p].stored
  }

  /** The only ways in which the entry of a key changes. */
  lemma StoreEffect(cfg: Config, w: World, e: Event, k: string)
    requires Enabled(cfg, w, e) && AllSane(cfg, w) && Agreement(w, k) && InLease(w, e, k)
    requires !WritesKey(w, e, k)
    ensures var w' := Next(cfg, w, e);
      if e == Delete(k) then k !in w'.store
      else if StoresRefresh(w, e, k) then
        && k in w.store && k in w'.store
        && w'.store[k].deadline == w.store[k].deadline
        && w.store[k].value == w.procs[e.p].seen
        && w'.store[k].value == w.procs[e.p].data
        && w.procs[e.p].at.renew >= w.store[k].value.meta.RefreshCooldown()
        && Renewal(cfg.session, w.store[k].value, w.procs[e.p].response, w.procs[e.p].at.renew, w.procs[e.p].at.extend,
                   w'.store[k].value)
      else
        (k in w'.store <==> k in w.store) && (k in w.store ==> w'.store[k] == w.store[k])
  {
    if e.Store? && w.procs[e.p].key == k {
      var pr := w.procs[e.p];
      assert Agrees(w, e.p);
      if !pr.stored {
        RefreshIsRenewal(cfg.session, pr.seen, pr.response, pr.at.can, pr.at.renew, pr.at.extend);
      }
    }
  }

  /** What an update leaves in the store is the provider's answer, applied to the session that was re-read: in every run. */
  lemma UpdatesStoreTheAnswer(cfg: Config, start: Time, es: seq<Event>, p: nat, acked: bool)
    requires Run(cfg, start, es).Some? && Enabled(cfg, Run(cfg, start, es).value, Store(p, acked))
    ensures var w := Run(cfg, start, es).value;
      var pr, after := w.procs[p], Next(cfg, w, Store(p, acked)).store;
      && pr.key in after
      && Renewal(cfg.session, pr.seen, pr.response, pr.at.renew, pr.at.extend, after[pr.key].value)
      && pr.seen.meta.RefreshCooldown() <= pr.at.can <= pr.at.renew <= pr.at.extend <= w.now
      && (forall k :: k in w.store && k != pr.key ==> k in after && after[k] == w.store[k])
  {
    SaneAlways(cfg, start, es);
    var w := Run(cfg, start, es).value;
    assert Sane(cfg, w.now, w.procs[p]);
    RefreshIsRenewal(cfg.session, w.procs[p].seen, w.procs[p].response, w.procs[p].at.can, w.procs[p].at.renew, w.procs[p].at.extend);
  }

  // ------------------------------------------------------- new sessions

  // pr is a login of the run, with the tokens and the lifetime that it was given.
  predicate IsLoginOf(e: Event, p: nat, pr: Proc) {
    && e.Redeem? && e.p == p && pr.expiresIn == e.expiresIn
    && pr.data.(meta := e.session.meta) == e.session
  }

  ghost predicate NewSessionInv(cfg: Config, es: seq<Event>, now: Time, p: nat, pr: Proc) {
    && (Unwritten(pr) ==> exists e :: e in es && IsLoginOf(e, p, pr))
    && (pr.pc.Limiting? || pr.pc.Writing? ==>
          && pr.data.meta.createdAt == pr.data.meta.refreshedAt <= now
          && pr.data.meta.expireAt == pr.data.meta.createdAt + pr.expiresIn
          && pr.data.meta.endsAt == pr.data.meta.createdAt + cfg.session.maxLifetime)
    && (pr.pc.Limiting? || (pr.pc.Writing? && !cfg.session.inactivity) ==> pr.data.meta.timeoutAt == ZERO_TIME)
    && (pr.pc.Writing? && cfg.session.inactivity ==>
          pr.data.meta.createdAt + cfg.session.inactivityTimeout <= pr.data.meta.timeoutAt <= now + cfg.session.inactivityTimeout)
  }

  lemma NewSessionLater(cfg: Config, es: seq<Event>, e: Event, now: Time, later: Time, p: nat, pr: Proc)
    requires now <= later && NewSessionInv(cfg, es, now, p, pr)
    ensures NewSessionInv(cfg, es + [e], later, p, pr)
  {
    if Unwritten(pr) {
      var login :| login in es && IsLoginOf(login, p, pr);
      assert login in es + [e];
    }
  }

  lemma NewSessionAdvance(cfg: Config, es: seq<Event>, now: Time, store: Redis.Keyspace<Data>, p: nat, pr: Proc)
    requires CanStep(pr.pc) && NewSessionInv(cfg, es, now, p, pr)
    ensures NewSessionInv(cfg, es, now, p, Advance(cfg, now, store, pr))
  {
    if pr.pc.Stamping? || pr.pc.Limiting? {
      var login :| login in es && IsLoginOf(login, p, pr);
      assert IsLoginOf(login, p, Advance(cfg, now, store, pr));
    }
  }

  lemma NewSessionOwnStep(cfg: Config, es: seq<Event>, w: World, e: Event)
    requires Enabled(cfg, w, e) && !e.Tick? && !e.Delete? && e in es
    requires e.p in w.procs ==> NewSessionInv(cfg, es, w.now, e.p, w.procs[e.p])
    ensures NewSessionInv(cfg, es, w.now, e.p, ProcAfter(cfg, w, e))
  {
    if e.Step? {
      NewSessionAdvance(cfg, es, w.now, w.store, e.p, w.procs[e.p]);
    }
    if e.Redeem? {
      assert IsLoginOf(e, e.p, ProcAfter(cfg, w, e));
    }
  }

  /** A login writes its tokens, with times counted from its own clock readings: what it does not change is what it was given. */
  lemma {:induction false} LoginsWriteNewSessions(cfg: Config, start: Time, es: seq<Event>)
    requires Run(cfg, start, es).Some?
    ensures var w := Run(cfg, start, es).value; forall p :: p in w.procs ==> NewSessionInv(cfg, es, w.now, p, w.procs[p])
  {
    if es != [] {
      var es0, e := es[..|es| - 1], es[|es| - 1];
      var w, w' := Run(cfg, start, es0).value, Run(cfg, start, es).value;
      assert es == es0 + [e];
      LoginsWriteNewSessions(cfg, start, es0);
      forall p | p in w'.procs ensures NewSessionInv(cfg, es, w'.now, p, w'.procs[p]) {
        if p in w.procs {
          NewSessionLater(cfg, es0, e, w.now, w'.now, p, w.procs[p]);
        }
        if !e.Tick? && !e.Delete? && p == e.p {
          if p in w.procs {
            NewSessionLater(cfg, es0, e, w.now, w.now, p, w.procs[p]);
          }
          NewSessionOwnStep(cfg, es, w, e);
        }
      }
    }
  }

  // No login writes key k after the first n events.
  ghost predicate NoWriteSince(cfg: Config, start: Time, es: seq<Event>, n: nat, k: string)
    requires n <= |es|
  {
    |es| == n ||
    var before, e := Run(cfg, start, es[..|es| - 1]), es[|es| - 1];
    NoWriteSince(cfg, start, es[..|es| - 1], n, k) && (before.Some? ==> !WritesKey(before.value, e, k))
  }

  // ----------------------------------------------- plausible timestamps

  // Every token lifetime granted for k is at least m.
  ghost predicate LifetimesAtLeast(cfg: Config, start: Time, es: seq<Event>, k: string, m: int) {
    es == [] ||
    var before, e := Run(cfg, start, es[..|es| - 1]), es[|es| - 1];
    LifetimesAtLeast(cfg, start, es[..|es| - 1], k, m) && (before.Some? ==> LivesFor(cfg, before.value, e, k, m))
  }

  predicate LivesFor(cfg: Config, w: World, e: Event, k: string, m: int) {
    && (e.Grant? && ActsOn(w, e, k) ==> e.response.expiresIn * SECOND >= m)
    && (e.Redeem? && SessionKey(cfg, e.session) == k ==> e.expiresIn >= m)
  }

  predicate DatedTokens(m: int, now: Time, d: Data) {
    d.meta.refreshedAt <= now && d.meta.TokenLifetime() >= m
  }

  predicate Dated(cfg: Config, m: int, now: Time, d: Data) {
    DatedTokens(m, now, d) && (cfg.session.inactivity ==> d.meta.timeoutAt <= now + cfg.session.inactivityTimeout)
  }

  ghost predicate DatedProc(cfg: Config, m: int, now: Time, pr: Proc) {
    && (pr.pc.Stamping? ==> pr.expiresIn >= m)
    && (pr.pc.Limiting? ==> DatedTokens(m, now, pr.data))
    && (pr.pc.Writing? ==> Dated(cfg, m, now, pr.data))
    && (Armed(pr) ==> Dated(cfg, m, pr.at.reread, pr.seen))
    && (Granted(pr) ==> pr.response.expiresIn * SECOND >= m)
  }

  ghost predicate AllDated(cfg: Config, m: int, w: World, k: string) {
    && (k in w.store ==> Dated(cfg, m, w.now, w.store[k].value))
    && (forall p :: p in w.procs && w.procs[p].key == k ==> DatedProc(cfg, m, w.now, w.procs[p]))
  }

  lemma DatedLater(cfg: Config, m: int, now: Time, later: Time, pr: Proc)
    requires now <= later && DatedProc(cfg, m, now, pr)
    ensures DatedProc(cfg, m, later, pr)
  {
  }

  lemma DatedAdvance(cfg: Config, m: int, now: Time, store: Redis.Keyspace<Data>, pr: Proc)
    requires CanStep(pr.pc) && Sane(cfg, now, pr) && DatedProc(cfg, m, now, pr)
    requires Redis.Has(store, now, pr.key) ==> Dated(cfg, m, now, store[pr.key].value)
    ensures DatedProc(cfg, m, now, Advance(cfg, now, store, pr))
  {
  }

  lemma DatedOwnStep(cfg: Config, m: int, w: World, e: Event)
    requires Enabled(cfg, w, e)
    requires !e.Tick? && !e.Delete?
    requires e.p in w.procs ==>
               && Sane(cfg, w.now, w.procs[e.p])
               && DatedProc(cfg, m, w.now, w.procs[e.p])
               && (Redis.Has(w.store, w.now, w.procs[e.p].key) ==> Dated(cfg, m, w.now, w.store[w.procs[e.p].key].value))
    requires e.Grant? ==> e.response.expiresIn * SECOND >= m
    requires e.Redeem? ==> e.expiresIn >= m
    ensures DatedProc(cfg, m, w.now, ProcAfter(cfg, w, e))
  {
    if e.Step? {
      DatedAdvance(cfg, m, w.now, w.store, w.procs[e.p]);
    }
  }

  lemma DatedReplacement(cfg: Config, m: int, now: Time, pr: Proc)
    requires pr.pc.Setting? && Sane(cfg, now, pr) && DatedProc(cfg, m, now, pr)
    ensures Dated(cfg, m, now, pr.data)
  {
  }

  lemma DatedStep(cfg: Config, m: int, w: World, e: Event, k: string)
    requires Enabled(cfg, w, e) && AllSane(cfg, w) && AllDated(cfg, m, w, k)
    requires LivesFor(cfg, w, e, k, m)
    ensures AllDated(cfg, m, Next(cfg, w, e), k)
  {
    var w' := Next(cfg, w, e);
    forall q | q in w'.procs && w'.procs[q].key == k ensures DatedProc(cfg, m, w'.now, w'.procs[q]) {
      if e.Tick? || e.Delete? || q != e.p {
        DatedLater(cfg, m, w.now, w'.now, w.procs[q]);
      } else {
        if e.p in w.procs {
          KeyStays(cfg, w, e);
        }
        DatedOwnStep(cfg, m, w, e);
      }
    }
    if e.Store? && w.procs[e.p].key == k {
      DatedReplacement(cfg, m, w.now, w.procs[e.p]);
    }
  }

  lemma KeyStays(cfg: Config, w: World, e: Event)
    requires Enabled(cfg, w, e) && !e.Tick? && !e.Delete? && e.p in w.procs
    ensures ProcAfter(cfg, w, e).key == w.procs[e.p].key
  {
    if e.Step? {
      AdvanceFrame(cfg, w.now, w.store, w.procs[e.p]);
    }
  }

  lemma {:induction false} DatedAlways(cfg: Config, m: int, start: Time, es: seq<Event>, k: string)
    requires Run(cfg, start, es).Some? && LifetimesAtLeast(cfg, start, es, k, m)
    ensures AllDated(cfg, m, Run(cfg, start, es).value, k)
  {
    if es != [] {
      var es0, e := es[..|es| - 1], es[|es| - 1];
      DatedAlways(cfg, m, start, es0, k);
      SaneAlways(cfg, start, es0);
      DatedStep(cfg, m, Run(cfg, start, es0).value, e, k);
    }
  }

  // ------------------------------------------------ frame, monotonicity

  /** What every sequence of refreshes leaves alone, and what only moves forward. */
  ghost predicate Descends(cfg: SessionConfig, before: Data, after: Data) {
    && after.externalSessionID == before.externalSessionID
    && after.idToken == before.idToken
    && after.idTokenJwtID == before.idTokenJwtID
    && after.meta.createdAt == before.meta.createdAt
    && after.meta.endsAt == before.meta.endsAt
    && after.meta.refreshedAt >= before.meta.refreshedAt
    && (if cfg.inactivity
        then after.meta.timeoutAt >= before.meta.timeoutAt
        else after.meta.timeoutAt == before.meta.timeoutAt)
  }

  // The session that a refresh works on: as re-read or, once its update has taken effect, as written.
  function CopyOf(pr: Proc): Data {
    if pr.stored then pr.data else pr.seen
  }

  lemma StoredRefreshDescends(cfg: Config, w: World, p: nat, k: string)
    requires Enabled(cfg, w, Store(p, true)) && AllSane(cfg, w) && AllDated(cfg, 0, w, k) && w.procs[p].key == k
    requires !w.procs[p].stored
    ensures Descends(cfg.session, w.procs[p].seen, w.procs[p].data)
  {
    assert DatedProc(cfg, 0, w.now, w.procs[p]) && Sane(cfg, w.now, w.procs[p]);
    CooldownLength(w.procs[p].seen.meta);
  }

  // The entry of k and the copies of refreshes in lease go back to the given session.
  ghost predicate AllDescend(cfg: Config, w: World, k: string, before: Data) {
    && (k in w.store ==> Descends(cfg.session, before, w.store[k].value))
    && (forall p :: Leased(w, p) && Armed(w.procs[p]) && w.procs[p].key == k ==>
          Descends(cfg.session, before, CopyOf(w.procs[p])))
  }

  // No entry, and no refresh in lease that could make one.
  ghost predicate Gone(w: World, k: string) {
    k !in w.store && Quiet(w, k)
  }

  // What the re-read makes of it.
  lemma CopyAfter(cfg: Config, w: World, e: Event)
    requires Enabled(cfg, w, e) && AllSane(cfg, w) && !e.Tick? && !e.Delete? && e.p in w.procs
    requires Armed(ProcAfter(cfg, w, e))
    ensures ProcAfter(cfg, w, e).key == w.procs[e.p].key && ProcAfter(cfg, w, e).lease == w.procs[e.p].lease
    ensures if Armed(w.procs[e.p])
            then CopyOf(ProcAfter(cfg, w, e)) == if e.Store? then w.procs[e.p].data else CopyOf(w.procs[e.p])
            else w.procs[e.p].key in w.store && CopyOf(ProcAfter(cfg, w, e)) == w.store[w.procs[e.p].key].value
                 && InSection(w.procs[e.p])
  {
    assert Sane(cfg, w.now, w.procs[e.p]);
    KeyStays(cfg, w, e);
  }

  lemma AllDescendStep(cfg: Config, w: World, e: Event, k: string, before: Data)
    requires Enabled(cfg, w, e) && AllSane(cfg, w) && AllDated(cfg, 0, w, k) && AllDescend(cfg, w, k, before)
    requires InLease(w, e, k) && !WritesKey(w, e, k)
    ensures AllDescend(cfg, Next(cfg, w, e), k, before)
  {
    var w' := Next(cfg, w, e);
    if e.Store? && w.procs[e.p].key == k && !w.procs[e.p].stored {
      StoredRefreshDescends(cfg, w, e.p, k);
    }
    forall p | Leased(w', p) && Armed(w'.procs[p]) && w'.procs[p].key == k
      ensures Descends(cfg.session, before, CopyOf(w'.procs[p]))
    {
      if !e.Tick? && !e.Delete? && e.p == p {
        CopyAfter(cfg, w, e);
      } else {
        assert Leased(w, p);
      }
    }
  }

  lemma GoneStep(cfg: Config, w: World, e: Event, k: string)
    requires Enabled(cfg, w, e) && AllSane(cfg, w) && Gone(w, k)
    requires InLease(w, e, k) && !WritesKey(w, e, k)
    ensures Gone(Next(cfg, w, e), k)
  {
    var w' := Next(cfg, w, e);
    forall p | p in w'.procs && w'.procs[p].key == k && Armed(w'.procs[p]) ensures !Leased(w', p) {
      if !e.Tick? && !e.Delete? && e.p == p {
        CopyAfter(cfg, w, e);
      }
    }
  }

  /**
    While no login writes a key, its session only ever changes by what a refresh
    may change, over any number of refreshes; whatever is deleted, runs out or
    crashes in between, as long as processes of the key act within their leases.
   */
  lemma {:induction false} SessionFrame(cfg: Config, start: Time, es: seq<Event>, n: nat, k: string)
    requires n <= |es| && Run(cfg, start, es).Some? && Run(cfg, start, es[..n]).Some?
    requires InLeaseSince(cfg, start, es, n, k) && Quiet(Run(cfg, start, es[..n]).value, k)
    requires LifetimesAtLeast(cfg, start, es, k, 0) && NoWriteSince(cfg, start, es, n, k)
    ensures var w0, w := Run(cfg, start, es[..n]).value, Run(cfg, start, es).value;
      if k in w0.store then AllDescend(cfg, w, k, w0.store[k].value) else Gone(w, k)
  {
    if |es| == n {
      assert es[..n] == es;
    } else {
      var es0, e := es[..|es| - 1], es[|es| - 1];
      var w0, w := Run(cfg, start, es[..n]).value, Run(cfg, start, es0).value;
      assert es0[..n] == es[..n];
      SessionFrame(cfg, start, es0, n, k);
      SaneAlways(cfg, start, es0);
      DatedAlways(cfg, 0, start, es0, k);
      if k in w0.store {
        AllDescendStep(cfg, w, e, k, w0.store[k].value);
      } else {
        GoneStep(cfg, w, e, k);
      }
    }
  }

  /** In a run without intrusions its deadline stays as well. */
  lemma {:induction false} SessionDeadline(cfg: Config, start: Time, es: seq<Event>, n: nat, k: string)
    requires cfg.backend.RedisStore? && n <= |es|
    requires Run(cfg, start, es).Some? && Disciplined(cfg, start, es, k) && NoWriteSince(cfg, start, es, n, k)
    requires k in Run(cfg, start, es).value.store
    ensures Run(cfg, start, es[..n]).Some?
    ensures var before, after := Run(cfg, start, es[..n]).value.store, Run(cfg, start, es).value.store;
      k in before && after[k].deadline == before[k].deadline
  {
    if |es| == n {
      assert es[..n] == es;
    } else {
      var es0 := es[..|es| - 1];
      assert es0[..n] == es[..n];
      AgreementAlways(cfg, start, es0, k);
      SaneAlways(cfg, start, es0);
      StoreEffect(cfg, Run(cfg, start, es0).value, es[|es| - 1], k);
      SessionDeadline(cfg, start, es0, n, k);
    }
  }

  // ---------------------------------------------------------- the rate

  function RefreshTime(w: World, e: Event, k: string): seq<Time> {
    if StoresRefresh(w, e, k) then [w.procs[e.p].data.meta.refreshedAt] else []
  }

  // RefreshedAt of the entry after n events (if any), then of each refresh stored since.
  function RefreshTimes(cfg: Config, start: Time, es: seq<Event>, n: nat, k: string): seq<Time>
    requires n <= |es|
  {
    var now := Run(cfg, start, es);
    if |es| == n then
      if now.Some? && k in now.value.store then [now.value.store[k].value.meta.refreshedAt] else []
    else
      var before, e := Run(cfg, start, es[..|es| - 1]), es[|es| - 1];
      RefreshTimes(cfg, start, es[..|es| - 1], n, k) + if before.Some? then RefreshTime(before.value, e, k) else []
  }

  ghost predicate Spaced(ts: seq<Time>, gap: int) {
    forall i :: 0 < i < |ts| ==> ts[i] >= ts[i - 1] + gap
  }

  function CountWithin(ts: seq<Time>, from: Time, to: Time): nat {
    if ts == [] then 0
    else CountWithin(ts[..|ts| - 1], from, to) + if from <= ts[|ts| - 1] <= to then 1 else 0
  }

  // The least time between two refreshes of tokens that live for m.
  function Gap(m: int): int {
    Min(m / 2, REFRESH_MIN_INTERVAL)
  }

  predicate LastIs(ts: seq<Time>, t: Time) {
    ts != [] && ts[|ts| - 1] == t
  }

  // The last refresh of k is that of its entry, and of the copy of a refresh in lease.
  ghost predicate LastRefresh(w: World, k: string, ts: seq<Time>) {
    && (k in w.store ==> LastIs(ts, w.store[k].value.meta.refreshedAt))
    && (forall p :: Leased(w, p) && Armed(w.procs[p]) && w.procs[p].key == k ==>
          LastIs(ts, CopyOf(w.procs[p]).meta.refreshedAt))
  }

  lemma LastRefreshOfEntry(cfg: Config, w: World, e: Event, k: string, ts: seq<Time>)
    requires Enabled(cfg, w, e) && AllSane(cfg, w) && LastRefresh(w, k, ts)
    requires InLease(w, e, k) && !WritesKey(w, e, k) && k in Next(cfg, w, e).store
    ensures LastIs(ts + RefreshTime(w, e, k), Next(cfg, w, e).store[k].value.meta.refreshedAt)
  {
    if e.Store? && w.procs[e.p].key == k {
      assert Leased(w, e.p) && Sane(cfg, w.now, w.procs[e.p]);
    }
  }

  lemma LastRefreshOfOwn(cfg: Config, w: World, e: Event, k: string, ts: seq<Time>)
    requires Enabled(cfg, w, e) && AllSane(cfg, w) && LastRefresh(w, k, ts)
    requires InLease(w, e, k) && !e.Tick? && !e.Delete?
    requires var pr' := ProcAfter(cfg, w, e); Armed(pr') && w.now < pr'.lease && pr'.key == k
    ensures LastIs(ts + RefreshTime(w, e, k), CopyOf(ProcAfter(cfg, w, e)).meta.refreshedAt)
  {
    CopyAfter(cfg, w, e);
  }

  lemma LastRefreshOfOther(cfg: Config, w: World, e: Event, k: string, ts: seq<Time>, p: nat)
    requires cfg.backend.RedisStore? && LockInv(cfg, w) && Enabled(cfg, w, e) && LastRefresh(w, k, ts) && InLease(w, e, k)
    requires Leased(w, p) && Armed(w.procs[p]) && w.procs[p].key == k
    requires e.Tick? || e.Delete? || e.p != p
    ensures LastIs(ts + RefreshTime(w, e, k), CopyOf(w.procs[p]).meta.refreshedAt)
  {
    if StoresRefresh(w, e, k) {
      MutualExclusion(cfg, w, p, e.p);
    }
  }

  lemma LastRefreshOf(cfg: Config, w: World, e: Event, k: string, ts: seq<Time>, p: nat)
    requires cfg.backend.RedisStore?
    requires Enabled(cfg, w, e) && LockInv(cfg, w) && AllSane(cfg, w) && LastRefresh(w, k, ts) && InLease(w, e, k)
    requires var w' := Next(cfg, w, e); Leased(w', p) && Armed(w'.procs[p]) && w'.procs[p].key == k
    ensures LastIs(ts + RefreshTime(w, e, k), CopyOf(Next(cfg, w, e).procs[p]).meta.refreshedAt)
  {
    if !e.Tick? && !e.Delete? && e.p == p {
      LastRefreshOfOwn(cfg, w, e, k, ts);
    } else {
      LastRefreshOfOther(cfg, w, e, k, ts, p);
    }
  }

  lemma LastRefreshStep(cfg: Config, w: World, e: Event, k: string, ts: seq<Time>)
    requires cfg.backend.RedisStore?
    requires Enabled(cfg, w, e) && LockInv(cfg, w) && AllSane(cfg, w) && LastRefresh(w, k, ts)
    requires InLease(w, e, k) && !WritesKey(w, e, k)
    ensures LastRefresh(Next(cfg, w, e), k, ts + RefreshTime(w, e, k))
  {
    var w' := Next(cfg, w, e);
    if k in w'.store {
      LastRefreshOfEntry(cfg, w, e, k, ts);
    }
    forall p | Leased(w', p) && Armed(w'.procs[p]) && w'.procs[p].key == k
      ensures LastIs(ts + RefreshTime(w, e, k), CopyOf(w'.procs[p]).meta.refreshedAt)
    {
      LastRefreshOf(cfg, w, e, k, ts, p);
    }
  }

  lemma SpacedStep(cfg: Config, w: World, e: Event, k: string, ts: seq<Time>, m: int)
    requires Enabled(cfg, w, e) && AllSane(cfg, w) && AllDated(cfg, m, w, k) && LastRefresh(w, k, ts) && m >= 0
    requires InLease(w, e, k) && Spaced(ts, Gap(m))
    ensures Spaced(ts + RefreshTime(w, e, k), Gap(m))
  {
    if StoresRefresh(w, e, k) {
      var pr := w.procs[e.p];
      assert Leased(w, e.p) && Sane(cfg, w.now, pr) && DatedProc(cfg, m, w.now, pr);
      CooldownLength(pr.seen.meta);
    }
  }

  /** Consecutive stored refreshes are a cooldown apart: deletions, expiry, crashes and other sessions do not matter. */
  lemma {:induction false} RefreshesSpaced(cfg: Config, start: Time, es: seq<Event>, n: nat, k: string, m: int)
    requires cfg.backend.RedisStore? && n <= |es| && m >= 0
    requires Run(cfg, start, es).Some? && Run(cfg, start, es[..n]).Some?
    requires InLeaseSince(cfg, start, es, n, k) && Quiet(Run(cfg, start, es[..n]).value, k)
    requires LifetimesAtLeast(cfg, start, es, k, m) && NoWriteSince(cfg, start, es, n, k)
    ensures var ts := RefreshTimes(cfg, start, es, n, k);
      Spaced(ts, Gap(m)) && LastRefresh(Run(cfg, start, es).value, k, ts)
  {
    if |es| == n {
      assert es[..n] == es;
    } else {
      var es0, e := es[..|es| - 1], es[|es| - 1];
      var w, ts := Run(cfg, start, es0).value, RefreshTimes(cfg, start, es0, n, k);
      assert es0[..n] == es[..n];
      RefreshesSpaced(cfg, start, es0, n, k, m);
      LockInvAlways(cfg, start, es0);
      SaneAlways(cfg, start, es0);
      DatedAlways(cfg, m, start, es0, k);
      LastRefreshStep(cfg, w, e, k, ts);
      SpacedStep(cfg, w, e, k, ts, m);
    }
  }

  lemma {:induction false} SpacedCount(ts: seq<Time>, gap: int, from: Time, to: Time)
    requires Spaced(ts, gap) && gap > 0
    requires CountWithin(ts, from, to) > 0
    ensures (CountWithin(ts, from, to) - 1) * gap <= Min(to, ts[|ts| - 1]) - from
  {
    var n := |ts| - 1;
    var c := CountWithin(ts[..n], from, to);
    if c > 0 {
      SpacedCount(ts[..n], gap, from, to);
      assert ts[n] >= ts[n - 1] + gap;
      assert c * gap == (c - 1) * gap + gap;
    }
  }

  lemma MulMonotone(a: int, b: int, gap: int)
    requires gap > 0
    ensures a <= b ==> a * gap <= b * gap
  {
  }

  lemma AtMostQuotient(c: int, gap: int, width: int)
    requires gap > 0 && width >= 0 && c * gap <= width
    ensures c <= width / gap
  {
    var q := width / gap;
    MulMonotone(q + 1, c, gap);
    assert (q + 1) * gap == q * gap + gap > width;
  }

  lemma SpacedBound(ts: seq<Time>, gap: int, from: Time, width: nat)
    requires Spaced(ts, gap) && gap > 0
    ensures CountWithin(ts, from, from + width) <= 1 + width / gap
  {
    var c := CountWithin(ts, from, from + width);
    if c > 0 {
      SpacedCount(ts, gap, from, from + width);
      AtMostQuotient(c - 1, gap, width);
    }
  }

  /**
    Refresh rate: with token lifetimes of at least m > 1 ns, a window of the
    given width holds at most 1 + width / min(m / 2, 1 minute) stored refreshes,
    as long as processes of the key act within their leases.
   */
  lemma RefreshRateBound(cfg: Config, start: Time, es: seq<Event>, n: nat, k: string, m: int, from: Time, width: nat)
    requires cfg.backend.RedisStore? && n <= |es| && m > 1
    requires Run(cfg, start, es).Some? && Run(cfg, start, es[..n]).Some?
    requires InLeaseSince(cfg, start, es, n, k) && Quiet(Run(cfg, start, es[..n]).value, k)
    requires LifetimesAtLeast(cfg, start, es, k, m) && NoWriteSince(cfg, start, es, n, k)
    ensures CountWithin(RefreshTimes(cfg, start, es, n, k), from, from + width) <= 1 + width / Gap(m)
  {
    RefreshesSpaced(cfg, start, es, n, k, m);
    SpacedBound(RefreshTimes(cfg, start, es, n, k), Gap(m), from, width);
  }

  // -------------------------------------------------- absolute lifetime

  // The time of the last write of key k by a login.
  function LastWrite(cfg: Config, start: Time, es: seq<Event>, k: string): Option<Time> {
    if es == [] then None
    else
      var before, e := Run(cfg, start, es[..|es| - 1]), es[|es| - 1];
      if before.Some? && WritesKey(before.value, e, k) then Some(before.value.now)
      else LastWrite(cfg, start, es[..|es| - 1], k)
  }

  // e is the second half of an update of key k, and its entry is not there any more.
  predicate UpdatesNothing(w: World, e: Event, k: string) {
    e.Store? && e.p in w.procs && w.procs[e.p].key == k && !Redis.Has(w.store, w.now, k)
  }

  /** An update of key k has found no entry since a login last wrote the key. */
  predicate Orphaned(cfg: Config, start: Time, es: seq<Event>, k: string) {
    es != [] &&
    var before, e := Run(cfg, start, es[..|es| - 1]), es[|es| - 1];
    before.Some? && !WritesKey(before.value, e, k) &&
    (UpdatesNothing(before.value, e, k) || Orphaned(cfg, start, es[..|es| - 1], k))
  }

  // The session in d ends by the given time.
  predicate EndsBy(d: Data, written: Option<Time>, maxLifetime: int) {
    written.Some? && d.meta.endsAt <= written.value + maxLifetime
  }

  // The part of the invariant that speaks of the entry of k.
  predicate EntryEndsInTime(ml: int, k: string, written: Option<Time>, orphaned: bool, store: Redis.Keyspace<Data>) {
    k in store ==>
      && EndsBy(store[k].value, written, ml)
      && store[k].deadline == if orphaned then None else Some(written.value + ml)
  }

  // The part that speaks of one process.
  predicate EndsInTime(now: Time, ml: int, k: string, written: Option<Time>, pr: Proc) {
    && (pr.key == k && Armed(pr) ==> EndsBy(pr.seen, written, ml))
    && (pr.pc.Limiting? || pr.pc.Writing? ==> pr.data.meta.endsAt <= now + ml)
  }

  ghost predicate LifetimeInv(cfg: Config, w: World, k: string, written: Option<Time>, orphaned: bool) {
    && (written.Some? ==> written.value <= w.now)
    && EntryEndsInTime(cfg.session.maxLifetime, k, written, orphaned, w.store)
    && (forall p :: p in w.procs ==> EndsInTime(w.now, cfg.session.maxLifetime, k, written, w.procs[p]))
  }

  lemma EndsInTimeOwnStep(cfg: Config, w: World, e: Event, k: string, written: Option<Time>, written': Option<Time>)
    requires Enabled(cfg, w, e) && !e.Tick? && !e.Delete?
    requires e.p in w.procs ==> EndsInTime(w.now, cfg.session.maxLifetime, k, written, w.procs[e.p])
    requires k in w.store ==> EndsBy(w.store[k].value, written, cfg.session.maxLifetime)
    requires written' == if WritesKey(w, e, k) then Some(w.now) else written
    ensures EndsInTime(w.now, cfg.session.maxLifetime, k, written', ProcAfter(cfg, w, e))
  {
    if e.Step? {
      AdvanceFrame(cfg, w.now, w.store, w.procs[e.p]);
    }
  }

  lemma EntryEndsInTimeStep(cfg: Config, w: World, e: Event, k: string, written: Option<Time>, orphaned: bool)
    requires cfg.backend.RedisStore? && cfg.session.maxLifetime > 0
    requires Enabled(cfg, w, e) && AllSane(cfg, w) && LifetimeInv(cfg, w, k, written, orphaned)
    ensures EntryEndsInTime(cfg.session.maxLifetime, k, if WritesKey(w, e, k) then Some(w.now) else written,
                            !WritesKey(w, e, k) && (UpdatesNothing(w, e, k) || orphaned), StoreAfter(cfg, w, e))
  {
    if e.Store? {
      assert w.procs[e.p].data.meta.endsAt == w.procs[e.p].seen.meta.endsAt;
    }
    if e.Store? || e.Write? {
      assert EndsInTime(w.now, cfg.session.maxLifetime, k, written, w.procs[e.p]);
    }
  }

  lemma LifetimeStep(cfg: Config, w: World, e: Event, k: string, written: Option<Time>, orphaned: bool)
    requires cfg.backend.RedisStore? && cfg.session.maxLifetime > 0
    requires Enabled(cfg, w, e) && AllSane(cfg, w) && LifetimeInv(cfg, w, k, written, orphaned)
    ensures LifetimeInv(cfg, Next(cfg, w, e), k, if WritesKey(w, e, k) then Some(w.now) else written,
                        !WritesKey(w, e, k) && (UpdatesNothing(w, e, k) || orphaned))
  {
    var w', ml := Next(cfg, w, e), cfg.session.maxLifetime;
    var written' := if WritesKey(w, e, k) then Some(w.now) else written;
    EntryEndsInTimeStep(cfg, w, e, k, written, orphaned);
    forall q | q in w'.procs ensures EndsInTime(w'.now, ml, k, written', w'.procs[q]) {
      if !e.Tick? && !e.Delete? && q == e.p {
        EndsInTimeOwnStep(cfg, w, e, k, written, written');
      } else {
        assert EndsInTime(w.now, ml, k, written, w.procs[q]);
      }
    }
  }

  lemma {:induction false} LifetimeAlways(cfg: Config, start: Time, es: seq<Event>, k: string)
    requires cfg.backend.RedisStore? && cfg.session.maxLifetime > 0
    requires Run(cfg, start, es).Some?
    ensures LifetimeInv(cfg, Run(cfg, start, es).value, k, LastWrite(cfg, start, es, k), Orphaned(cfg, start, es, k))
  {
    if es != [] {
      var es0, e := es[..|es| - 1], es[|es| - 1];
      LifetimeAlways(cfg, start, es0, k);
      SaneAlways(cfg, start, es0);
      LifetimeStep(cfg, Run(cfg, start, es0).value, e, k, LastWrite(cfg, start, es0, k), Orphaned(cfg, start, es0, k));
    }
  }

  /**
    Absolute lifetime: over any number of refreshes an entry's deadline is its
    last write by a login plus the maximum lifetime, and never before EndsAt,
    so that no read succeeds from then on; unless an update has found no entry,
    and exactly then the session can be read for ever.
   */
  lemma AbsoluteLifetime(cfg: Config, start: Time, es: seq<Event>, k: string)
    requires cfg.backend.RedisStore? && cfg.session.maxLifetime > 0
    requires Run(cfg, start, es).Some? && k in Run(cfg, start, es).value.store
    ensures var slot, written := Run(cfg, start, es).value.store[k], LastWrite(cfg, start, es, k);
      && written.Some?
      && slot.value.meta.endsAt <= written.value + cfg.session.maxLifetime
      && slot.deadline == if Orphaned(cfg, start, es, k) then None else Some(written.value + cfg.session.maxLifetime)
    ensures var store, written := Run(cfg, start, es).value.store, LastWrite(cfg, start, es, k);
      && ((exists t :: t >= written.value + cfg.session.maxLifetime && Redis.Has(store, t, k)) <==> Orphaned(cfg, start, es, k))
      && ((forall t :: Redis.Has(store, t, k)) <==> Orphaned(cfg, start, es, k))
  {
    LifetimeAlways(cfg, start, es, k);
    var store, end := Run(cfg, start, es).value.store, LastWrite(cfg, start, es, k).value + cfg.session.maxLifetime;
    assert Redis.Has(store, end, k) <==> Orphaned(cfg, start, es, k);
  }
}
