/**
  Tokens of inactive sessions.  After its re-read, a refresh asks whether the
  session can be refreshed before it asks whether it has timed out.  A session
  that another request has just refreshed is on cooldown, and so it is handed
  out even if it has timed out; which takes a timeout shorter than the cooldown.
  So is one that a login without a refresh token has written, for any timeout.
 */
module ProtocolInactiveToken {
  import opened SessionTime
  import opened SessionData
  import opened SessionKeys
  import opened Wrappers
  import Redis
  import opened Provider
  import opened Protocol
  import opened ProtocolExclusion
  import opened ProtocolData
  import opened ProtocolAccess
  import opened ProtocolChain

  /**
    The session whose token is handed out had not timed out when this request
    read it; when it is the request's own update, the session it replaces had not.
   */
  predicate ActiveWhenRead(cfg: Config, pr: Proc)
    requires pr.result.Good?
  {
    var d := pr.result.data;
    || (d == pr.first && !IsTimedOut(cfg.session, pr.first, pr.firstIdle))
    || (d == pr.seen && !IsTimedOut(cfg.session, pr.seen, pr.at.reread))
    || (pr.stored && d == pr.data && d == Replacement(cfg, pr) && !IsTimedOut(cfg.session, pr.seen, pr.at.idle))
  }

  predicate HandsOutInactive(cfg: Config, w: World, p: nat) {
    && p in w.procs && w.procs[p].role.Proxy? && At(w, p, Done) && w.procs[p].result.Good?
    && !ActiveWhenRead(cfg, w.procs[p])
  }

  // Every login comes with a refresh token.
  ghost predicate RefreshableLogins(es: seq<Event>) {
    forall e :: e in es && e.Redeem? ==> e.session.HasRefreshToken()
  }

  /** The guard of the branch: the session was re-read, had timed out, and could not be refreshed. */
  lemma InactiveTokenGuard(cfg: Config, start: Time, es: seq<Event>, p: nat)
    requires Run(cfg, start, es).Some? && HandsOutInactive(cfg, Run(cfg, start, es).value, p)
    ensures var pr := Run(cfg, start, es).value.procs[p];
      && pr.refresh == Good(pr.seen) && pr.result == Good(pr.seen)
      && pr.at.reread <= pr.at.can
      && IsTimedOut(cfg.session, pr.seen, pr.at.reread) && !CanRefresh(cfg.session, pr.seen, pr.at.can)
  {
    AccessTokensAreSound(cfg, start, es);
    var w := Run(cfg, start, es).value;
    assert SoundAnswer(cfg, w.now, w.procs[p]);
  }

  // ------------------------------------- timeouts that outlast the cooldown

  // A session times out its configured timeout after its last refresh, and not before.
  predicate Lasting(cfg: Config, d: Data) {
    d.HasRefreshToken() && d.meta.timeoutAt >= d.meta.refreshedAt + cfg.session.inactivityTimeout
  }

  predicate LastingProc(cfg: Config, now: Time, pr: Proc) {
    && (Unwritten(pr) ==> pr.data.HasRefreshToken())
    && (pr.pc.Limiting? ==> pr.data.meta.refreshedAt <= now)
    && (pr.pc.Writing? ==> Lasting(cfg, pr.data))
    && (pr.seen == EMPTY_DATA || Lasting(cfg, pr.seen))
    && (Armed(pr) ==> Lasting(cfg, pr.seen))
    && (Granted(pr) ==> |pr.response.refreshToken| > 0)
  }

  ghost predicate AllLasting(cfg: Config, w: World) {
    && (forall k :: k in w.store ==> Lasting(cfg, w.store[k].value))
    && (forall p :: p in w.procs ==> LastingProc(cfg, w.now, w.procs[p]))
  }

  lemma LastingAdvance(cfg: Config, now: Time, store: Redis.Keyspace<Data>, pr: Proc)
    requires cfg.session.inactivity && CanStep(pr.pc) && LastingProc(cfg, now, pr)
    requires pr.key in store ==> Lasting(cfg, store[pr.key].value)
    ensures LastingProc(cfg, now, Advance(cfg, now, store, pr))
  {
  }

  lemma LastingOwnStep(cfg: Config, w: World, e: Event)
    requires cfg.session.inactivity && Enabled(cfg, w, e) && !e.Tick? && !e.Delete?
    requires e.p in w.procs ==>
               && LastingProc(cfg, w.now, w.procs[e.p])
               && (w.procs[e.p].key in w.store ==> Lasting(cfg, w.store[w.procs[e.p].key].value))
    requires e.Redeem? ==> e.session.HasRefreshToken()
    ensures LastingProc(cfg, w.now, ProcAfter(cfg, w, e))
  {
    if e.Step? {
      LastingAdvance(cfg, w.now, w.store, w.procs[e.p]);
    }
  }

  lemma {:induction false} LastingAlways(cfg: Config, start: Time, es: seq<Event>)
    requires cfg.session.inactivity && Run(cfg, start, es).Some? && RefreshableLogins(es)
    ensures AllLasting(cfg, Run(cfg, start, es).value)
  {
    if es != [] {
      var es0, e := es[..|es| - 1], es[|es| - 1];
      var w, w' := Run(cfg, start, es0).value, Run(cfg, start, es).value;
      LastingAlways(cfg, start, es0);
      SaneAlways(cfg, start, es0);
      if !e.Tick? && !e.Delete? {
        LastingOwnStep(cfg, w, e);
      }
      if e.Store? {
        assert Sane(cfg, w.now, w.procs[e.p]);
      }
      assert forall p :: p in w'.procs ==> LastingProc(cfg, w'.now, w'.procs[p]);
    }
  }

  lemma LongTimeoutsSuffice(cfg: Config, start: Time, es: seq<Event>, p: nat)
    requires cfg.session.refresh && cfg.session.inactivity && cfg.session.inactivityTimeout >= REFRESH_MIN_INTERVAL - 1
    requires Run(cfg, start, es).Some? && RefreshableLogins(es)
    ensures !HandsOutInactive(cfg, Run(cfg, start, es).value, p)
  {
    if HandsOutInactive(cfg, Run(cfg, start, es).value, p) {
      InactiveTokenGuard(cfg, start, es, p);
      LastingAlways(cfg, start, es);
      var w := Run(cfg, start, es).value;
      assert LastingProc(cfg, w.now, w.procs[p]) && SoundAnswer(cfg, w.now, w.procs[p]) by {
        AccessTokensAreSound(cfg, start, es);
      }
      CooldownAtMost(w.procs[p].seen.meta);
      assert false;
    }
  }

  // -------------------------------------------- how it ends otherwise

  // Configurations with refreshes, a sensible timeout, and sessions that outlast a cooldown.
  predicate Sensible(cfg: Config) {
    && cfg.session.refresh && cfg.session.inactivity
    && cfg.session.inactivityTimeout >= 0 && cfg.session.maxLifetime >= REFRESH_MIN_INTERVAL
  }

  function K(cfg: Config): string {
    Key(cfg.provider, cfg.clientID, "sid")
  }

  ghost predicate Reached(cfg: Config, es: seq<Event>, w: World, refreshable: bool) {
    Run(cfg, 1, es) == Some(w) && (refreshable ==> RefreshableLogins(es))
  }

  lemma Occurs(cfg: Config, es: seq<Event>, w: World, e: Event, refreshable: bool) returns (es': seq<Event>, w': World)
    requires Reached(cfg, es, w, refreshable) && Enabled(cfg, w, e) && !e.Redeem?
    ensures w' == Next(cfg, w, e) && Reached(cfg, es', w', refreshable)
  {
    RunSnoc(cfg, 1, es, e);
    es', w' := es + [e], Next(cfg, w, e);
  }

  lemma TameIsReached(cfg: Config, es: seq<Event>, w: World, es': seq<Event>, w': World, refreshable: bool)
    requires Reached(cfg, es, w, refreshable) && es <= es' && Run(cfg, 1, es') == Some(w') && TameSince(cfg, 1, es', |es|)
    ensures Reached(cfg, es', w', refreshable)
  {
    if refreshable {
      assert es'[..|es|] == es;
      TameIsRefreshable(cfg, 1, es', |es|);
    }
  }

  // A session that is due, was active when it was read at time idle; and what is stored by now.
  datatype Story = Story(first: Data, idle: Time, found: Redis.Slot<Data>)

  predicate EndsBadly(cfg: Config, s: Story, now: Time) {
    && s.first.HasRefreshToken() && s.first.meta.ShouldRefresh(now, now, now) && s.idle <= now
    && IsTimedOut(cfg.session, s.found.value, now) && !CanRefresh(cfg.session, s.found.value, now)
    && Redis.Alive(s.found, now) && s.found.value.HasAccessToken() && !s.found.value.meta.IsExpired(now)
    && s.found.value != s.first
  }

  // Process 1 is a proxied request that has got from its first read to pc.
  predicate GoingOn(cfg: Config, s: Story, w: World, pc: PC) {
    && At(w, 1, pc) && w.procs[1].role.Proxy? && w.procs[1].key == K(cfg)
    && w.procs[1].first == s.first && w.procs[1].firstIdle == s.idle && !w.procs[1].stored
    && K(cfg) in w.store && w.store[K(cfg)] == s.found
    && (pc.Deciding? || pc.Entering? || pc.Waiting? ==> !Redis.Has(w.locks, w.now, K(cfg)))
    && (pc.CheckingCan? || pc.Releasing? || pc.Finishing? ==>
          w.procs[1].seen == s.found.value && w.procs[1].at.reread == w.now)
    && (pc.Releasing? || pc.Finishing? ==> w.procs[1].refresh == Good(s.found.value))
  }

  lemma Decides(cfg: Config, s: Story, w: World)
    requires Sensible(cfg) && EndsBadly(cfg, s, w.now) && GoingOn(cfg, s, w, Deciding)
    ensures Enabled(cfg, w, Decide(1, w.now, w.now))
    ensures var w' := Next(cfg, w, Decide(1, w.now, w.now)); GoingOn(cfg, s, w', Entering) && w'.now == w.now
  {
  }

  lemma GoesOn(cfg: Config, s: Story, w: World, pc: PC)
    requires Sensible(cfg) && EndsBadly(cfg, s, w.now) && GoingOn(cfg, s, w, pc) && pc in {Entering, Rereading, CheckingCan}
    ensures var w' := Next(cfg, w, Step(1));
      w'.now == w.now && GoingOn(cfg, s, w', match pc case Entering => Waiting case Rereading => CheckingCan case _ => Releasing)
  {
    if pc.Entering? {
      RefreshWindow(s.first.meta, w.now, w.now, w.now);
    }
  }

  lemma Answers(cfg: Config, s: Story, w: World)
    requires Sensible(cfg) && EndsBadly(cfg, s, w.now) && GoingOn(cfg, s, w, Finishing)
    ensures HandsOutInactive(cfg, Next(cfg, w, Step(1)), 1)
  {
    var pr := Next(cfg, w, Step(1)).procs[1];
    assert pr.result == Good(s.found.value);
  }

  lemma TakesLock(cfg: Config, s: Story, es: seq<Event>, w: World, refreshable: bool) returns (es': seq<Event>, w': World)
    requires Sensible(cfg) && Reached(cfg, es, w, refreshable) && EndsBadly(cfg, s, w.now) && GoingOn(cfg, s, w, Deciding)
    ensures Reached(cfg, es', w', refreshable) && w'.now == w.now && GoingOn(cfg, s, w', Rereading)
  {
    Decides(cfg, s, w);
    var es1, w1 := Occurs(cfg, es, w, Decide(1, w.now, w.now), refreshable);
    GoesOn(cfg, s, w1, Entering);
    var es2, w2 := Occurs(cfg, es1, w1, Step(1), refreshable);
    es', w' := Occurs(cfg, es2, w2, Acquire(1), refreshable);
  }

  lemma HandsOut(cfg: Config, s: Story, es: seq<Event>, w: World, refreshable: bool) returns (es': seq<Event>, w': World)
    requires Sensible(cfg) && Reached(cfg, es, w, refreshable) && EndsBadly(cfg, s, w.now) && GoingOn(cfg, s, w, Deciding)
    ensures Reached(cfg, es', w', refreshable) && HandsOutInactive(cfg, w', 1)
  {
    var es1, w1 := TakesLock(cfg, s, es, w, refreshable);
    GoesOn(cfg, s, w1, Rereading);
    var es2, w2 := Occurs(cfg, es1, w1, Step(1), refreshable);
    GoesOn(cfg, s, w2, CheckingCan);
    var es3, w3 := Occurs(cfg, es2, w2, Step(1), refreshable);
    var es4, w4 := Occurs(cfg, es3, w3, Release(1, true), refreshable);
    Answers(cfg, s, w4);
    es', w' := Occurs(cfg, es4, w4, Step(1), refreshable);
  }

  // The session that process 1 reads first comes from a login whose tokens are due for renewal at once.
  function EntryOf(cfg: Config, p: nat): Entry {
    Entry(cfg, p, Data("sid", "access", "id", "a", "jti", EMPTY_META), 0)
  }

  // Written at time t.
  function SlotAt(cfg: Config, d: Data, t: Time): Redis.Slot<Data> {
    Redis.Slot(d, if cfg.backend.RedisStore? then Some(t + cfg.session.maxLifetime) else None)
  }

  // A login has written a session, and process 1 has got to pc with it.
  predicate Reading1(cfg: Config, w0: World, w: World, d: Data, pc: PC) {
    && 1 in w.procs && w.procs == w0.procs[1 := w.procs[1]]
    && w.now == w0.now && w.store == w0.store && w.locks == w0.locks && w.live == w0.live && w.issued == w0.issued
    && w.procs[1] == match pc
                     case Reading => NewProc(Proxy, K(cfg), Reading)
                     case CheckingIdle => NewProc(Proxy, K(cfg), CheckingIdle).(first := d)
                     case _ => NewProc(Proxy, K(cfg), Deciding).(first := d, firstIdle := w.now)
  }

  lemma Reads1(cfg: Config, w0: World, w: World, d: Data, pc: PC)
    requires Sensible(cfg) && Reading1(cfg, w0, w, d, pc) && (pc.Reading? || pc.CheckingIdle?)
    requires Redis.Get(w0.store, w0.now, K(cfg)) == Some(d) && !IsTimedOut(cfg.session, d, w0.now)
    ensures Reading1(cfg, w0, Next(cfg, w, Step(1)), d, if pc.Reading? then CheckingIdle else Deciding)
  {
  }

  lemma ReadsFirst(cfg: Config, es: seq<Event>, w: World, d: Data, refreshable: bool) returns (es': seq<Event>, w': World)
    requires Sensible(cfg) && Reached(cfg, es, w, refreshable) && 1 !in w.procs
    requires Redis.Get(w.store, w.now, K(cfg)) == Some(d) && !IsTimedOut(cfg.session, d, w.now)
    ensures Reached(cfg, es', w', refreshable) && Reading1(cfg, w, w', d, Deciding)
  {
    var es1, w1 := Occurs(cfg, es, w, Arrive(1, Proxy, K(cfg)), refreshable);
    Reads1(cfg, w, w1, d, Reading);
    var es2, w2 := Occurs(cfg, es1, w1, Step(1), refreshable);
    Reads1(cfg, w, w2, d, CheckingIdle);
    es', w' := Occurs(cfg, es2, w2, Step(1), refreshable);
  }

  // --------------------------------------------------- shorter timeouts

  function JobOf(cfg: Config): Job {
    Job(cfg, 2, K(cfg), SlotAt(cfg, Stamped(EntryOf(cfg, 0), 1), 1), TokenResponse("new", "c", 120))
  }

  // The session is refreshed right after process 1 has read it; when it has timed out it is still on cooldown.
  function Refreshed(cfg: Config): Story {
    Story(JobOf(cfg).slot.value, 1, JobOf(cfg).slot.(value := RefreshedData(JobOf(cfg), 1)))
  }

  lemma LoginWrites(cfg: Config, w: World)
    requires Sensible(cfg) && LoggingIn(EntryOf(cfg, 0), Init(1), w, Writing)
    ensures Enabled(cfg, w, Write(0, true))
    ensures var w' := Next(cfg, w, Write(0, true));
      w'.now == 1 && w'.procs.Keys == {0} && CanStart(JobOf(cfg), w') && w'.locks == map[]
  {
  }

  lemma LoginWaits(cfg: Config) returns (es: seq<Event>, w: World)
    requires Sensible(cfg)
    ensures Reached(cfg, es, w, true) && LoggingIn(EntryOf(cfg, 0), Init(1), w, Writing)
  {
    es, w := LogsIn(EntryOf(cfg, 0), 1, [], Init(1));
    TameIsReached(cfg, [], Init(1), es, w, true);
  }

  // The login is done, and nothing else has happened.
  lemma LoginIsDone(cfg: Config) returns (es: seq<Event>, w: World)
    requires Sensible(cfg)
    ensures Reached(cfg, es, w, true) && w.now == 1 && w.procs.Keys == {0} && CanStart(JobOf(cfg), w) && w.locks == map[]
  {
    var es1, w1 := LoginWaits(cfg);
    LoginWrites(cfg, w1);
    es, w := Occurs(cfg, es1, w1, Write(0, true), true);
  }

  lemma IsRefreshedMeanwhile(cfg: Config) returns (es: seq<Event>, w: World)
    requires Sensible(cfg)
    ensures Reached(cfg, es, w, true) && w.now == 1 && GoingOn(cfg, Refreshed(cfg), w, Deciding) && w.locks == map[]
  {
    var es1, w1 := LoginIsDone(cfg);
    var d := JobOf(cfg).slot.value;
    var es2, w2 := ReadsFirst(cfg, es1, w1, d, true);
    var es3, w3 := GetsTo(JobOf(cfg), 1, es2, w2, Finishing);
    TameIsReached(cfg, es2, w2, es3, w3, true);
    es, w := es3, w3;
    assert w.procs[1] == w2.procs[1];
  }

  lemma RefreshedEndsBadly(cfg: Config)
    requires Sensible(cfg) && cfg.session.inactivityTimeout < REFRESH_MIN_INTERVAL - 1
    ensures EndsBadly(cfg, Refreshed(cfg), 2 + cfg.session.inactivityTimeout)
  {
  }

  /** For any shorter timeout, a run in which the token of an inactive session is handed out. */
  lemma ShortTimeoutsDoNot(cfg: Config) returns (es: seq<Event>, w: World)
    requires Sensible(cfg) && cfg.session.inactivityTimeout < REFRESH_MIN_INTERVAL - 1
    ensures Run(cfg, 1, es) == Some(w) && RefreshableLogins(es) && HandsOutInactive(cfg, w, 1)
  {
    var es1, w1 := IsRefreshedMeanwhile(cfg);
    var es2, w2 := Occurs(cfg, es1, w1, Tick(cfg.session.inactivityTimeout + 1), true);
    RefreshedEndsBadly(cfg);
    es, w := HandsOut(cfg, Refreshed(cfg), es2, w2, true);
  }

  // ------------------------------------------ logins without refresh tokens

  // Such a login starts at time 1, and is slow to write.
  function SlowEntry(cfg: Config): Entry {
    Entry(cfg, 3, Data("sid", "other", "id", "", "jti", EMPTY_META), 2 + cfg.session.inactivityTimeout)
  }

  // Process 1 reads the session of another login, which the slow one then replaces.
  function Replaced(cfg: Config): Story {
    var t := 2 + cfg.session.inactivityTimeout;
    Story(Stamped(EntryOf(cfg, 0), t), t, SlotAt(cfg, Stamped(SlowEntry(cfg), 1), t + 1))
  }

  // The slow login is about to write.
  predicate IsSlow(cfg: Config, w: World) {
    At(w, 3, Writing) && w.procs[3].key == K(cfg) && w.procs[3].data == Stamped(SlowEntry(cfg), 1)
  }

  lemma SlowLoginWaits(cfg: Config) returns (es: seq<Event>, w: World)
    requires Sensible(cfg)
    ensures Reached(cfg, es, w, false) && w.now == 2 + cfg.session.inactivityTimeout
    ensures w.procs.Keys == {3} && IsSlow(cfg, w) && w.locks == map[] && w.store == map[]
  {
    var es1, w1 := LogsIn(SlowEntry(cfg), 1, [], Init(1));
    es, w := Occurs(cfg, es1, w1, Tick(cfg.session.inactivityTimeout + 1), false);
  }

  lemma OtherLoginWrites(cfg: Config) returns (es: seq<Event>, w: World)
    requires Sensible(cfg)
    ensures Reached(cfg, es, w, false) && w.now == 2 + cfg.session.inactivityTimeout
    ensures w.procs.Keys == {0, 3} && IsSlow(cfg, w) && w.locks == map[]
    ensures Redis.Get(w.store, w.now, K(cfg)) == Some(Replaced(cfg).first)
  {
    var es1, w1 := SlowLoginWaits(cfg);
    var es2, w2 := LogsIn(EntryOf(cfg, 0), 1, es1, w1);
    es, w := Occurs(cfg, es2, w2, Write(0, true), false);
  }

  lemma IsReplacedMeanwhile(cfg: Config) returns (es: seq<Event>, w: World)
    requires Sensible(cfg)
    ensures Reached(cfg, es, w, false) && w.now == 3 + cfg.session.inactivityTimeout
    ensures GoingOn(cfg, Replaced(cfg), w, Deciding)
  {
    var es1, w1 := OtherLoginWrites(cfg);
    var es2, w2 := ReadsFirst(cfg, es1, w1, Replaced(cfg).first, false);
    var es3, w3 := Occurs(cfg, es2, w2, Tick(1), false);
    es, w := Occurs(cfg, es3, w3, Write(3, true), false);
  }

  /** For any timeout, a run in which that happens with a session that cannot be refreshed at all. */
  lemma UnrefreshableSessionsDoNot(cfg: Config) returns (es: seq<Event>, w: World)
    requires Sensible(cfg)
    ensures Run(cfg, 1, es) == Some(w) && HandsOutInactive(cfg, w, 1)
  {
    var es1, w1 := IsReplacedMeanwhile(cfg);
    ReplacedEndsBadly(cfg);
    es, w := HandsOut(cfg, Replaced(cfg), es1, w1, false);
  }

  lemma ReplacedEndsBadly(cfg: Config)
    requires Sensible(cfg)
    ensures EndsBadly(cfg, Replaced(cfg), 3 + cfg.session.inactivityTimeout)
  {
  }

  // In this configuration a request can be handed the token of a session that had
  // timed out when it read it; even if all logins bring refresh tokens.
  ghost predicate CanHandOutInactive(cfg: Config, refreshable: bool) {
    exists start, es, p ::
      && Run(cfg, start, es).Some? && (refreshable ==> RefreshableLogins(es))
      && HandsOutInactive(cfg, Run(cfg, start, es).value, p)
  }

  /**
    That is so exactly when the inactivity timeout is shorter than the longest
    cooldown, by the clock's resolution, or logins may lack a refresh token.
   */
  lemma CanHandOutInactiveIff(cfg: Config, refreshable: bool)
    requires Sensible(cfg)
    ensures CanHandOutInactive(cfg, refreshable) <==>
            cfg.session.inactivityTimeout < REFRESH_MIN_INTERVAL - 1 || !refreshable
  {
    if cfg.session.inactivityTimeout < REFRESH_MIN_INTERVAL - 1 {
      var es, w := ShortTimeoutsDoNot(cfg);
      assert Run(cfg, 1, es).Some? && HandsOutInactive(cfg, Run(cfg, 1, es).value, 1);
    } else if !refreshable {
      var es, w := UnrefreshableSessionsDoNot(cfg);
      assert Run(cfg, 1, es).Some? && HandsOutInactive(cfg, Run(cfg, 1, es).value, 1);
    } else {
      forall start, es, p | Run(cfg, start, es).Some? && RefreshableLogins(es)
        ensures !HandsOutInactive(cfg, Run(cfg, start, es).value, p)
      {
        LongTimeoutsSuffice(cfg, start, es, p);
      }
    }
  }
}
