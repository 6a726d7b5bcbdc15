/**
  What a request ends with: access tokens handed to the proxied application,
  and the sessions a logout removes.
 */
module ProtocolAccess {
  import opened SessionTime
  import opened SessionData
  import opened SessionKeys
  import opened Wrappers
  import Redis
  import opened Protocol
  import opened ProtocolData

  // The request has read its session and passed the first inactivity check.
  predicate PastIdleCheck(pr: Proc) {
    pr.pc.Deciding? || pr.pc.Entering? || pr.pc.Waiting? || Holding(pr) || pr.pc.Finishing?
    || (pr.pc.Done? && pr.result.Good?)
  }

  predicate InRefresh(pr: Proc) {
    pr.pc.Entering? || pr.pc.Waiting? || Holding(pr)
  }

  // What a refresh that ended well has returned: the session as first read; the
  // one re-read, if it cannot be refreshed any more; or its own update, which is
  // stored, with the tokens of the provider's answer, of a session that had not
  // timed out.
  predicate RefreshReturns(cfg: Config, pr: Proc) {
    pr.refresh.Good? ==>
      || pr.refresh.data == pr.first
      || (pr.refresh.data == pr.seen && pr.at.reread <= pr.at.can && !CanRefresh(cfg.session, pr.seen, pr.at.can))
      || (pr.stored && pr.refresh.data == pr.data && pr.data == Replacement(cfg, pr)
          && Renewal(cfg.session, pr.seen, pr.response, pr.at.renew, pr.at.extend, pr.refresh.data)
          && !IsTimedOut(cfg.session, pr.seen, pr.at.idle))
  }

  /** The contract of GetAccessToken with respect to everything it went through. */
  ghost predicate SoundAnswer(cfg: Config, now: Time, pr: Proc) {
    && (Unwritten(pr) ==> pr.role.Login?)
    && (pr.role.Proxy? && PastIdleCheck(pr) ==>
          pr.firstIdle <= now && !IsTimedOut(cfg.session, pr.first, pr.firstIdle))
    && (pr.role.Proxy? && InRefresh(pr) ==> IsDue(cfg.session, pr.first, now))
    && (pr.pc.Waiting? || Holding(pr) ==> CanRefresh(cfg.session, pr.first, now))
    && (pr.pc.Releasing? || pr.pc.Finishing? ==> pr.refresh != Pending && RefreshReturns(cfg, pr))
    && (pr.role.Proxy? && pr.pc.Done? && pr.result.Good? ==> GoodToken(cfg, now, pr))
  }

  predicate GoodToken(cfg: Config, now: Time, pr: Proc)
    requires pr.result.Good?
  {
    var d := pr.result.data;
    && d.HasAccessToken()
    && pr.finishedAt <= now
    && !d.meta.IsExpired(pr.finishedAt)
    && !IsTimedOut(cfg.session, pr.first, pr.firstIdle)
    && pr.refresh != Pending && pr.refresh != Bad(InvalidState) && pr.refresh != Bad(SessionInactive)
    && (pr.refresh.Bad? ==> d == pr.first)
    && (pr.refresh.Good? ==> d == pr.refresh.data && RefreshReturns(cfg, pr))
  }

  ghost predicate AllSound(cfg: Config, w: World) {
    forall p :: p in w.procs ==> SoundAnswer(cfg, w.now, w.procs[p])
  }

  lemma SoundAdvance(cfg: Config, now: Time, store: Redis.Keyspace<Data>, pr: Proc)
    requires CanStep(pr.pc) && Sane(cfg, now, pr) && SoundAnswer(cfg, now, pr)
    ensures SoundAnswer(cfg, now, Advance(cfg, now, store, pr))
  {
  }

  lemma SoundOwnStep(cfg: Config, w: World, e: Event)
    requires Enabled(cfg, w, e) && !e.Tick? && !e.Delete?
    requires e.p in w.procs ==> Sane(cfg, w.now, w.procs[e.p]) && SoundAnswer(cfg, w.now, w.procs[e.p])
    ensures SoundAnswer(cfg, w.now, ProcAfter(cfg, w, e))
  {
    if e.Step? {
      SoundAdvance(cfg, w.now, w.store, w.procs[e.p]);
    } else if e.Decide? {
      SoundDecision(cfg, w.now, w.procs[e.p], e.t1, e.t2);
    } else {
      SoundOtherStep(cfg, w, e);
    }
  }

  lemma SoundDecision(cfg: Config, now: Time, pr: Proc, t1: Time, t2: Time)
    requires pr.pc.Deciding? && t1 <= t2 <= now && SoundAnswer(cfg, now, pr)
    ensures SoundAnswer(cfg, now, Decided(cfg, pr, t1, t2, now))
  {
    ShouldRefreshIsDue(cfg.session, pr.first, t1, t2, now);
  }

  lemma SoundOtherStep(cfg: Config, w: World, e: Event)
    requires Enabled(cfg, w, e) && !e.Tick? && !e.Delete? && !e.Step? && !e.Decide?
    requires e.p in w.procs ==> Sane(cfg, w.now, w.procs[e.p]) && SoundAnswer(cfg, w.now, w.procs[e.p])
    ensures SoundAnswer(cfg, w.now, ProcAfter(cfg, w, e))
  {
  }

  lemma {:induction false} AccessTokensAreSound(cfg: Config, start: Time, es: seq<Event>)
    requires Run(cfg, start, es).Some?
    ensures AllSound(cfg, Run(cfg, start, es).value)
  {
    if es != [] {
      var es0, e := es[..|es| - 1], es[|es| - 1];
      var w := Run(cfg, start, es0).value;
      AccessTokensAreSound(cfg, start, es0);
      SaneAlways(cfg, start, es0);
      if !e.Tick? && !e.Delete? {
        SoundOwnStep(cfg, w, e);
      }
    }
  }

  /**
    The decision whether to refresh: a session that is due at its first reading
    is refreshed, and one that is not due at its last is left as it was read.
   */
  lemma DueSessionsAreRefreshed(cfg: Config, w: World, p: nat, t1: Time, t2: Time)
    requires Enabled(cfg, w, Decide(p, t1, t2))
    ensures var pr, pr' := w.procs[p], Next(cfg, w, Decide(p, t1, t2)).procs[p];
      && (IsDue(cfg.session, pr.first, t1) ==> pr'.pc.Entering?)
      && (!IsDue(cfg.session, pr.first, w.now) ==> pr'.pc.Finishing? && pr'.refresh == Good(pr.first))
      && (pr'.pc.Entering? || (pr'.pc.Finishing? && pr'.refresh == Good(pr.first)))
      && pr'.first == pr.first
  {
    ShouldRefreshIsDue(cfg.session, w.procs[p].first, t1, t2, w.now);
  }

  /** How a request ends: which outcomes of a refresh are errors, and what a token has to be to be handed out. */
  lemma ProxiedRequestsEnd(cfg: Config, w: World, p: nat)
    requires At(w, p, Finishing) && w.procs[p].refresh != Pending
    ensures var pr, pr' := w.procs[p], Next(cfg, w, Step(p)).procs[p];
      && pr'.pc.Done?
      && (if pr.role.Endpoint? then pr'.result == pr.refresh
          else if pr.refresh == Bad(InvalidState) || pr.refresh == Bad(SessionInactive) then pr'.result == pr.refresh
          else
            var d := if pr.refresh.Good? then pr.refresh.data else pr.first;
            && (pr'.result == Good(d) <==> d.accessToken != "" && w.now <= d.meta.expireAt)
            && (pr'.result == Bad(NoAccessToken) <==> d.accessToken == "")
            && (pr'.result == Bad(ExpiredAccessToken) <==> d.accessToken != "" && w.now > d.meta.expireAt))
  {
  }

  /** The session as first read is never written again by anything that happens to the request. */
  lemma FirstReadIsKept(cfg: Config, w: World, e: Event, p: nat)
    requires Enabled(cfg, w, e) && p in w.procs && !w.procs[p].pc.Reading?
    ensures Next(cfg, w, e).procs[p].first == w.procs[p].first
  {
  }

  // ------------------------------------------------------ keys, logout

  predicate Keyed(cfg: Config, k: string, d: Data) {
    SessionKey(cfg, d) == k
  }

  predicate KeyedProc(cfg: Config, pr: Proc) {
    && (Unwritten(pr) ==> Keyed(cfg, pr.key, pr.data))
    && (Armed(pr) ==> Keyed(cfg, pr.key, pr.seen))
  }

  ghost predicate AllKeyed(cfg: Config, w: World) {
    && (forall k :: k in w.store ==> Keyed(cfg, k, w.store[k].value))
    && (forall p :: p in w.procs ==> KeyedProc(cfg, w.procs[p]))
  }

  lemma KeyedOwnStep(cfg: Config, w: World, e: Event)
    requires Enabled(cfg, w, e) && !e.Tick? && !e.Delete?
    requires e.p in w.procs ==>
               && KeyedProc(cfg, w.procs[e.p])
               && (w.procs[e.p].key in w.store ==> Keyed(cfg, w.procs[e.p].key, w.store[w.procs[e.p].key].value))
    ensures KeyedProc(cfg, ProcAfter(cfg, w, e))
  {
    if e.Step? {
      KeyedAdvance(cfg, w.now, w.store, w.procs[e.p]);
    }
  }

  lemma KeyedAdvance(cfg: Config, now: Time, store: Redis.Keyspace<Data>, pr: Proc)
    requires CanStep(pr.pc) && KeyedProc(cfg, pr)
    requires pr.key in store ==> Keyed(cfg, pr.key, store[pr.key].value)
    ensures KeyedProc(cfg, Advance(cfg, now, store, pr))
  {
  }

  /** In every reachable state each session sits under the key of its own identifier. */
  lemma {:induction false} KeyedAlways(cfg: Config, start: Time, es: seq<Event>)
    requires Run(cfg, start, es).Some?
    ensures AllKeyed(cfg, Run(cfg, start, es).value)
  {
    if es != [] {
      var es0, e := es[..|es| - 1], es[|es| - 1];
      var w := Run(cfg, start, es0).value;
      KeyedAlways(cfg, start, es0);
      SaneAlways(cfg, start, es0);
      if !e.Tick? && !e.Delete? {
        KeyedOwnStep(cfg, w, e);
        if e.Store? {
          assert w.procs[e.p].data.externalSessionID == w.procs[e.p].seen.externalSessionID;
        }
      }
    }
  }

  /**
    Logout by cookie deletes the key computed from the identifier found in the
    entry the cookie names; that is the very entry, and no other one changes.
   */
  lemma LogoutDeletesTheNamedSession(cfg: Config, start: Time, es: seq<Event>, cookie: string)
    requires Run(cfg, start, es).Some? && cookie in Run(cfg, start, es).value.store
    ensures var w := Run(cfg, start, es).value;
      var w' := Next(cfg, w, Delete(Key(cfg.provider, cfg.clientID, w.store[cookie].value.externalSessionID)));
      && cookie !in w'.store
      && (forall k :: k in w.store && k != cookie ==> k in w'.store && w'.store[k] == w.store[k])
  {
    KeyedAlways(cfg, start, es);
  }

  // e is the login that a session with data d comes from, whatever refreshes have done to it.
  predicate LoginOf(e: Event, d: Data) {
    && e.Redeem?
    && d.externalSessionID == e.session.externalSessionID
    && d.idToken == e.session.idToken && d.idTokenJwtID == e.session.idTokenJwtID
    && (if e.id.sid.Some? then d.externalSessionID == e.id.sid.value
        else
          && !e.id.sidRequired
          && (if e.id.sessionState != "" then d.externalSessionID == e.id.sessionState
              else !e.id.sessionStateRequired && d.externalSessionID == e.id.generated))
  }

  ghost predicate FromLogin(es: seq<Event>, d: Data) {
    exists e :: e in es && LoginOf(e, d)
  }

  ghost predicate AllFromLogins(es: seq<Event>, w: World) {
    && (forall k :: k in w.store ==> FromLogin(es, w.store[k].value))
    && (forall p :: p in w.procs ==> ProcFromLogin(es, w.procs[p]))
  }

  ghost predicate ProcFromLogin(es: seq<Event>, pr: Proc) {
    && (Unwritten(pr) ==> FromLogin(es, pr.data))
    && (Armed(pr) ==> FromLogin(es, pr.seen))
  }

  lemma FromLoginLater(es: seq<Event>, e: Event, d: Data)
    requires FromLogin(es, d)
    ensures FromLogin(es + [e], d)
  {
    var login :| login in es && LoginOf(login, d);
    assert login in es + [e];
  }

  // A session remains one of the same login when its tokens and its times change.
  lemma FromLoginRenewed(es: seq<Event>, d: Data, d': Data)
    requires FromLogin(es, d)
    requires d'.externalSessionID == d.externalSessionID && d'.idToken == d.idToken && d'.idTokenJwtID == d.idTokenJwtID
    ensures FromLogin(es, d')
  {
    var login :| login in es && LoginOf(login, d);
    assert LoginOf(login, d');
  }

  lemma FromLoginAdvance(cfg: Config, es: seq<Event>, now: Time, store: Redis.Keyspace<Data>, pr: Proc)
    requires CanStep(pr.pc) && ProcFromLogin(es, pr)
    requires pr.key in store ==> FromLogin(es, store[pr.key].value)
    ensures ProcFromLogin(es, Advance(cfg, now, store, pr))
  {
    if Unwritten(pr) {
      FromLoginRenewed(es, pr.data, Advance(cfg, now, store, pr).data);
    }
  }

  lemma FromLoginOwnStep(cfg: Config, es: seq<Event>, w: World, e: Event)
    requires Enabled(cfg, w, e) && !e.Tick? && !e.Delete? && e in es
    requires e.p in w.procs ==> ProcFromLogin(es, w.procs[e.p])
    requires forall k :: k in w.store ==> FromLogin(es, w.store[k].value)
    ensures ProcFromLogin(es, ProcAfter(cfg, w, e))
  {
    if e.Step? {
      FromLoginAdvance(cfg, es, w.now, w.store, w.procs[e.p]);
    }
    if e.Redeem? {
      assert LoginOf(e, e.session);
    }
  }

  /** In every reachable state each session comes from a login of the run, and has the identifier of that login. */
  lemma {:induction false} FromLoginAlways(cfg: Config, start: Time, es: seq<Event>)
    requires Run(cfg, start, es).Some?
    ensures AllFromLogins(es, Run(cfg, start, es).value)
  {
    if es != [] {
      var es0, e := es[..|es| - 1], es[|es| - 1];
      var w, w' := Run(cfg, start, es0).value, Run(cfg, start, es).value;
      FromLoginAlways(cfg, start, es0);
      SaneAlways(cfg, start, es0);
      assert es == es0 + [e];
      forall d | FromLogin(es0, d) ensures FromLogin(es, d) {
        FromLoginLater(es0, e, d);
      }
      if !e.Tick? && !e.Delete? {
        FromLoginOwnStep(cfg, es, w, e);
      }
      if e.Store? {
        assert Sane(cfg, w.now, w.procs[e.p]);
        FromLoginRenewed(es, w.procs[e.p].seen, w.procs[e.p].data);
      }
      assert forall p :: p in w'.procs ==> ProcFromLogin(es, w'.procs[p]);
    }
  }

  /**
    Front-channel logout with a `sid` deletes exactly the sessions with this
    identifier.  Every session comes from some login; those of logins whose
    id_token carried the `sid` are among them, and those of logins whose
    id_token carried another one are not.
   */
  lemma FrontChannelLogoutDeletesTheSid(cfg: Config, start: Time, es: seq<Event>, sid: string)
    requires ':' !in cfg.provider && ':' !in cfg.clientID
    requires Run(cfg, start, es).Some?
    ensures var w := Run(cfg, start, es).value;
      var w' := Next(cfg, w, Delete(Key(cfg.provider, cfg.clientID, sid)));
      forall k :: k in w.store ==>
        && FromLogin(es, w.store[k].value)
        && (if w.store[k].value.externalSessionID == sid then k !in w'.store
            else k in w'.store && w'.store[k] == w.store[k])
        && (forall e :: e in es && LoginOf(e, w.store[k].value) && e.id.sid.Some? ==>
              (k !in w'.store <==> e.id.sid == Some(sid)))
  {
    KeyedAlways(cfg, start, es);
    FromLoginAlways(cfg, start, es);
    var w := Run(cfg, start, es).value;
    forall k | k in w.store && k == Key(cfg.provider, cfg.clientID, sid)
      ensures w.store[k].value.externalSessionID == sid
    {
      KeyInjective(cfg.provider, cfg.clientID, sid,
                   cfg.provider, cfg.clientID, w.store[k].value.externalSessionID);
    }
  }
}
