/**
  Inactivity is absorbing: a session that has timed out stays as it is until it
  is deleted or a login writes it anew, for either store, when no process holds
  a copy of it with which a refresh can still succeed.
 */
module ProtocolInactivity {
  import opened SessionTime
  import opened SessionData
  import Redis
  import opened Protocol
  import opened ProtocolExclusion
  import opened ProtocolData
  import opened ProtocolHistory

  /**
    pr holds a copy, re-read before, that will pass both checks: at the first
    instant at which it is off cooldown it has not timed out, and the entry is
    still there to be updated.
   */
  predicate CanPass(cfg: Config, slot: Redis.Slot<Data>, now: Time, pr: Proc) {
    (pr.pc.CheckingCan? || pr.pc.CheckingTimeout?) && PassesAt(cfg, slot, pr.seen, Max(now, pr.seen.meta.RefreshCooldown()))
  }

  predicate PassesAt(cfg: Config, slot: Redis.Slot<Data>, d: Data, t: Time) {
    CanRefresh(cfg.session, d, t) && !IsTimedOut(cfg.session, d, t) && Redis.Alive(slot, t)
  }

  /** It is the same to ask for any instant from now on. */
  lemma CanPassIff(cfg: Config, slot: Redis.Slot<Data>, now: Time, pr: Proc)
    requires pr.pc.CheckingCan? || pr.pc.CheckingTimeout?
    ensures CanPass(cfg, slot, now, pr) <==> exists t :: t >= now && PassesAt(cfg, slot, pr.seen, t)
  {
    var soonest := Max(now, pr.seen.meta.RefreshCooldown());
    forall t | t >= now && PassesAt(cfg, slot, pr.seen, t) ensures PassesAt(cfg, slot, pr.seen, soonest) {
    }
  }

  // pr can neither pass the checks nor, if it has passed them, find the entry.
  predicate Stuck(cfg: Config, slot: Redis.Slot<Data>, now: Time, pr: Proc) {
    && !CanPass(cfg, slot, now, pr)
    && (PastTimeoutCheck(pr) ==> !Redis.Alive(slot, now))
    && !pr.pc.Setting?
  }

  // It is on its way to ask for new tokens with one that has been spent.
  predicate Spends(w: World, pr: Proc) {
    && (pr.pc.CheckingCan? || pr.pc.CheckingTimeout? || pr.pc.Granting?)
    && pr.seen.refreshToken in w.issued && pr.seen.refreshToken !in w.live
  }

  // It is in its section, and its lock has run out.
  predicate Late(now: Time, pr: Proc) {
    InSection(pr) && pr.lease <= now
  }

  // What holds of everything that happens from now on: codes are used once, processes act within their leases.
  datatype Assumed = Assumed(once: bool, leased: bool)

  predicate Harmless(cfg: Config, slot: Redis.Slot<Data>, w: World, a: Assumed, pr: Proc) {
    Stuck(cfg, slot, w.now, pr) || (a.once && Spends(w, pr)) || (a.leased && Late(w.now, pr))
  }

  /** The entry of k, if it is still there, has timed out, and no process of k can change that. */
  ghost predicate Frozen(cfg: Config, w: World, k: string, slot: Redis.Slot<Data>, a: Assumed) {
    && cfg.session.inactivity
    && IsTimedOut(cfg.session, slot.value, w.now)
    && (k in w.store ==> w.store[k] == slot)
    && (forall p :: p in w.procs && w.procs[p].key == k ==> Harmless(cfg, slot, w, a, w.procs[p]))
  }

  lemma StuckAdvance(cfg: Config, slot: Redis.Slot<Data>, now: Time, store: Redis.Keyspace<Data>, pr: Proc)
    requires CanStep(pr.pc) && Sane(cfg, now, pr) && Stuck(cfg, slot, now, pr)
    requires cfg.session.inactivity && IsTimedOut(cfg.session, slot.value, now)
    requires pr.key in store ==> store[pr.key] == slot
    ensures Stuck(cfg, slot, now, Advance(cfg, now, store, pr))
  {
    if pr.pc.CheckingTimeout? {
      CanPassIff(cfg, slot, now, pr);
      assert PassesAt(cfg, slot, pr.seen, now) || !Redis.Alive(slot, now) || IsTimedOut(cfg.session, pr.seen, now);
    }
  }

  lemma StuckLater(cfg: Config, slot: Redis.Slot<Data>, now: Time, later: Time, pr: Proc)
    requires now <= later && Stuck(cfg, slot, now, pr)
    ensures Stuck(cfg, slot, later, pr)
  {
    if CanPass(cfg, slot, later, pr) {
      CanPassIff(cfg, slot, later, pr);
      CanPassIff(cfg, slot, now, pr);
    }
  }

  lemma HarmlessOwnStep(cfg: Config, slot: Redis.Slot<Data>, w: World, a: Assumed, e: Event)
    requires Enabled(cfg, w, e) && !e.Tick? && !e.Delete?
    requires cfg.session.inactivity && IsTimedOut(cfg.session, slot.value, w.now)
    requires e.p in w.procs ==>
               && Sane(cfg, w.now, w.procs[e.p]) && Harmless(cfg, slot, w, a, w.procs[e.p])
               && (a.leased ==> InLease(w, e, w.procs[e.p].key))
               && (w.procs[e.p].key in w.store ==> w.store[w.procs[e.p].key] == slot)
    ensures Stuck(cfg, slot, w.now, ProcAfter(cfg, w, e)) || (a.once && Spends(w, ProcAfter(cfg, w, e)))
  {
    if e.Step? && Stuck(cfg, slot, w.now, w.procs[e.p]) {
      StuckAdvance(cfg, slot, w.now, w.store, w.procs[e.p]);
    }
  }

  // A spent token stays spent when codes are used once.
  lemma HarmlessStays(cfg: Config, slot: Redis.Slot<Data>, w: World, a: Assumed, e: Event, pr: Proc)
    requires Enabled(cfg, w, e) && (a.once ==> SingleUseCodes(w, e))
    requires Harmless(cfg, slot, w, a, pr)
    ensures Harmless(cfg, slot, Next(cfg, w, e), a, pr)
  {
    if Stuck(cfg, slot, w.now, pr) {
      StuckLater(cfg, slot, w.now, Next(cfg, w, e).now, pr);
    }
  }

  lemma FrozenStep(cfg: Config, w: World, e: Event, k: string, slot: Redis.Slot<Data>, a: Assumed)
    requires Enabled(cfg, w, e) && AllSane(cfg, w) && Frozen(cfg, w, k, slot, a)
    requires !WritesKey(w, e, k) && (a.once ==> SingleUseCodes(w, e)) && (a.leased ==> InLease(w, e, k))
    ensures Frozen(cfg, Next(cfg, w, e), k, slot, a)
    ensures k !in w.store ==> k !in Next(cfg, w, e).store
  {
    var w' := Next(cfg, w, e);
    if e.Store? {
      assert w.procs[e.p].key == k ==> Harmless(cfg, slot, w, a, w.procs[e.p]);
    }
    forall p | p in w'.procs && w'.procs[p].key == k ensures Harmless(cfg, slot, w', a, w'.procs[p]) {
      if !e.Tick? && !e.Delete? && e.p == p {
        if p in w.procs {
          KeyStays(cfg, w, e);
        }
        HarmlessOwnStep(cfg, slot, w, a, e);
        HarmlessStays(cfg, slot, w, a, e, w'.procs[p]);
      } else {
        HarmlessStays(cfg, slot, w, a, e, w.procs[p]);
      }
    }
  }

  // What is assumed holds after the first n events.
  ghost predicate AssumedSince(cfg: Config, start: Time, es: seq<Event>, n: nat, k: string, a: Assumed)
    requires n <= |es|
  {
    && (a.once ==> UsesCodesOnceSince(cfg, start, es, n))
    && (a.leased ==> InLeaseSince(cfg, start, es, n, k))
  }

  /** While no login writes the key, a frozen session is either unchanged or gone, and gone for good. */
  lemma {:induction false} InactivityIsAbsorbing(cfg: Config, start: Time, es: seq<Event>, n: nat, k: string,
                                                 slot: Redis.Slot<Data>, a: Assumed)
    requires n <= |es| && Run(cfg, start, es).Some? && NoWriteSince(cfg, start, es, n, k)
    requires AssumedSince(cfg, start, es, n, k, a)
    requires Run(cfg, start, es[..n]).Some? && Frozen(cfg, Run(cfg, start, es[..n]).value, k, slot, a)
    ensures Frozen(cfg, Run(cfg, start, es).value, k, slot, a)
    ensures k !in Run(cfg, start, es[..n]).value.store ==> k !in Run(cfg, start, es).value.store
  {
    if |es| == n {
      assert es[..n] == es;
    } else {
      var es0 := es[..|es| - 1];
      assert es0[..n] == es[..n];
      InactivityIsAbsorbing(cfg, start, es0, n, k, slot, a);
      SaneAlways(cfg, start, es0);
      FrozenStep(cfg, Run(cfg, start, es0).value, es[|es| - 1], k, slot, a);
    }
  }

  // The stored session has timed out, and no process, or none in lease, is
  // between its timeout check and the end of its update.
  ghost predicate Inactive(cfg: Config, w: World, k: string, leased: bool) {
    && cfg.session.inactivity
    && k in w.store && IsTimedOut(cfg.session, w.store[k].value, w.now)
    && (forall p :: p in w.procs && w.procs[p].key == k && (leased ==> Leased(w, p)) ==> !PastTimeoutCheck(w.procs[p]))
  }

  /**
    When no login, logout or expiry has intruded on k, that is enough under the
    Redis lock: a process in lease that has re-read the session holds what is
    stored.  Processes whose locks have run out are assumed not to act, unless
    there are none.
   */
  lemma FrozenUnderLock(cfg: Config, start: Time, es: seq<Event>, k: string, leased: bool)
    requires cfg.backend.RedisStore?
    requires Run(cfg, start, es).Some? && Disciplined(cfg, start, es, k)
    requires Inactive(cfg, Run(cfg, start, es).value, k, leased)
    requires var w := Run(cfg, start, es).value;
      !leased ==> forall p :: p in w.procs && w.procs[p].key == k ==> !Late(w.now, w.procs[p])
    ensures var w := Run(cfg, start, es).value; Frozen(cfg, w, k, w.store[k], Assumed(false, leased))
  {
    AgreementAlways(cfg, start, es, k);
    SaneAlways(cfg, start, es);
    var w := Run(cfg, start, es).value;
    forall p | p in w.procs && w.procs[p].key == k
      ensures Harmless(cfg, w.store[k], w, Assumed(false, leased), w.procs[p])
    {
      if Leased(w, p) && Armed(w.procs[p]) {
        assert Agrees(w, p);
      }
    }
  }

  // ------------------------------------------ what requests get to see

  // p has not read the session of k, or has failed, or is about to.
  predicate IsDoomed(cfg: Config, now: Time, k: string, pr: Proc) {
    pr.role.Proxy? && pr.key == k ==>
      || pr.pc.Reading?
      || (pr.pc.CheckingIdle? && IsTimedOut(cfg.session, pr.first, now))
      || (pr.pc.Done? && pr.result.Bad? && pr.result.error in {SessionInactive, KeyNotFound, Unexpected})
  }

  predicate Doomed(cfg: Config, w: World, k: string, p: nat) {
    p in w.procs ==> IsDoomed(cfg, w.now, k, w.procs[p])
  }

  lemma DoomedStep(cfg: Config, w: World, e: Event, k: string, slot: Redis.Slot<Data>, a: Assumed, p: nat)
    requires Enabled(cfg, w, e) && Frozen(cfg, w, k, slot, a) && Doomed(cfg, w, k, p)
    requires !WritesKey(w, e, k)
    ensures Doomed(cfg, Next(cfg, w, e), k, p)
  {
    if !e.Tick? && !e.Delete? && e.p == p {
      DoomedOwnStep(cfg, w, e, k, slot);
    }
  }

  lemma DoomedOwnStep(cfg: Config, w: World, e: Event, k: string, slot: Redis.Slot<Data>)
    requires Enabled(cfg, w, e) && !e.Tick? && !e.Delete?
    requires Doomed(cfg, w, k, e.p)
    requires k in w.store ==> IsTimedOut(cfg.session, w.store[k].value, w.now)
    ensures IsDoomed(cfg, w.now, k, ProcAfter(cfg, w, e))
  {
    if e.Step? {
      AdvanceFrame(cfg, w.now, w.store, w.procs[e.p]);
    }
  }

  /** Every GetOrRefresh that has not read a frozen session yet fails. */
  lemma {:induction false} ReadersOfInactiveFail(cfg: Config, start: Time, es: seq<Event>, n: nat, k: string,
                                                 slot: Redis.Slot<Data>, a: Assumed, p: nat)
    requires n <= |es| && Run(cfg, start, es).Some? && NoWriteSince(cfg, start, es, n, k)
    requires AssumedSince(cfg, start, es, n, k, a)
    requires Run(cfg, start, es[..n]).Some? && Frozen(cfg, Run(cfg, start, es[..n]).value, k, slot, a)
    requires var w := Run(cfg, start, es[..n]).value; p !in w.procs || At(w, p, Reading)
    ensures Doomed(cfg, Run(cfg, start, es).value, k, p)
  {
    if |es| == n {
      assert es[..n] == es;
    } else {
      var es0 := es[..|es| - 1];
      assert es0[..n] == es[..n];
      InactivityIsAbsorbing(cfg, start, es0, n, k, slot, a);
      ReadersOfInactiveFail(cfg, start, es0, n, k, slot, a, p);
      DoomedStep(cfg, Run(cfg, start, es0).value, es[|es| - 1], k, slot, a, p);
    }
  }
}
