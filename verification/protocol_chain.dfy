/**
  A login and a refresh that meet no obstacle, step by step: the stretches that
  the runs given as examples have in common.
 */
module ProtocolChain {
  import opened SessionTime
  import opened SessionData
  import opened Wrappers
  import Redis
  import opened Provider
  import opened Protocol
  import opened ProtocolExclusion
  import opened ProtocolHistory
  import opened ProtocolTokens

  // Process p refreshes the session in k, with the entry slot, and is answered r.
  datatype Job = Job(cfg: Config, p: nat, k: string, slot: Redis.Slot<Data>, r: TokenResponse)

  predicate CanStart(j: Job, w: World) {
    && j.p !in w.procs
    && j.k in w.store && w.store[j.k] == j.slot && Redis.Alive(j.slot, w.now)
    && !Redis.Has(w.locks, w.now, j.k)
    && CanRefresh(j.cfg.session, j.slot.value, w.now) && !IsTimedOut(j.cfg.session, j.slot.value, w.now)
    && j.slot.value.refreshToken in w.live && FreshResponse(w, j.r)
  }

  function RefreshedData(j: Job, now: Time): Data {
    Touched(j.cfg.session, Renewed(j.slot.value, j.r, now), now)
  }

  predicate IsStored(pc: PC) {
    pc.Releasing? || pc.Finishing?
  }

  predicate HasTokens(pc: PC) {
    pc.Renewing? || pc.Extending? || pc.Updating? || pc.Setting? || IsStored(pc)
  }

  // What p knows at pc.
  predicate Knows(j: Job, now: Time, pr: Proc, pc: PC) {
    && pr.role.Endpoint? && pr.key == j.k && pr.pc == pc && (!IsStored(pc) ==> !pr.stored)
    && (!pc.Reading? ==> pr.first == j.slot.value)
    && (Armed(pr) ==> pr.seen == j.slot.value)
    && (Granted(pr) ==> pr.response == j.r)
    && (Holding(pr) ==> pr.lease == now + LEASE)
    && (pc.CheckingCan? || pc.CheckingTimeout? || pc.Granting? || pc.Renewing? ==> pr.data == j.slot.value)
    && (pc.Extending? ==> pr.data == Renewed(j.slot.value, j.r, now))
    && (pc.Updating? || pc.Setting? || IsStored(pc) ==> pr.data == RefreshedData(j, now))
  }

  // What has become of the world in which p arrived.
  predicate Doing(j: Job, w0: World, w: World, pc: PC)
    requires j.slot.value.refreshToken in w0.live
  {
    && w.now == w0.now && j.p in w.procs && w.procs == w0.procs[j.p := w.procs[j.p]]
    && Knows(j, w.now, w.procs[j.p], pc)
    && w.store == (if IsStored(pc) then w0.store[j.k := j.slot.(value := RefreshedData(j, w.now))] else w0.store)
    && (if HasTokens(pc)
        then w.live == Rotate(w0.live, j.slot.value.refreshToken, j.r.refreshToken)
        else w.live == w0.live && w.issued == w0.issued)
    && (if j.cfg.backend.MemoryStore? || pc.Reading? || pc.Entering? || pc.Waiting? then w.locks == w0.locks
        else if pc.Finishing? then w.locks == Redis.Del(w0.locks, j.k)
        else w.locks == w0.locks[j.k := Redis.Slot(w.procs[j.p].ticket, Some(w.now + LEASE))])
  }

  // The program counters of a refresh, in order.
  function Rank(pc: PC): nat {
    match pc
    case Reading => 12 case Entering => 11 case Waiting => 10 case Rereading => 9 case CheckingCan => 8
    case CheckingTimeout => 7 case Granting => 6 case Renewing => 5 case Extending => 4 case Updating => 3
    case Setting => 2 case Releasing => 1 case _ => 0
  }

  function AfterPC(pc: PC): PC {
    match pc
    case Reading => Entering case Entering => Waiting case Waiting => Rereading case Rereading => CheckingCan
    case CheckingCan => CheckingTimeout case CheckingTimeout => Granting case Granting => Renewing
    case Renewing => Extending case Extending => Updating case Updating => Setting case Setting => Releasing
    case _ => Finishing
  }

  function EventAt(j: Job, pc: PC): Event {
    match pc
    case Waiting => Acquire(j.p)
    case Granting => Grant(j.p, j.r)
    case Setting => Store(j.p, true)
    case Releasing => Release(j.p, true)
    case _ => Step(j.p)
  }

  ghost predicate Advances(j: Job, w0: World, w: World, pc: PC)
    requires j.slot.value.refreshToken in w0.live
  {
    Enabled(j.cfg, w, EventAt(j, pc)) && Doing(j, w0, Next(j.cfg, w, EventAt(j, pc)), AfterPC(pc))
  }

  lemma Reads(j: Job, w0: World, w: World, pc: PC)
    requires CanStart(j, w0) && Doing(j, w0, w, pc) && pc in {Reading, Entering, Rereading}
    ensures Advances(j, w0, w, pc)
  {
  }

  lemma Checks(j: Job, w0: World, w: World, pc: PC)
    requires CanStart(j, w0) && Doing(j, w0, w, pc) && pc in {CheckingCan, CheckingTimeout}
    ensures Advances(j, w0, w, pc)
  {
  }

  lemma Renews(j: Job, w0: World, w: World, pc: PC)
    requires CanStart(j, w0) && Doing(j, w0, w, pc) && pc in {Renewing, Extending, Updating}
    ensures Advances(j, w0, w, pc)
  {
  }

  lemma Locks(j: Job, w0: World, w: World, pc: PC)
    requires CanStart(j, w0) && Doing(j, w0, w, pc) && pc.Waiting?
    ensures Advances(j, w0, w, pc)
  {
  }

  lemma IsAnswered(j: Job, w0: World, w: World, pc: PC)
    requires CanStart(j, w0) && Doing(j, w0, w, pc) && pc.Granting?
    ensures Advances(j, w0, w, pc)
  {
  }

  lemma Stores(j: Job, w0: World, w: World, pc: PC)
    requires CanStart(j, w0) && Doing(j, w0, w, pc) && pc.Setting?
    ensures Advances(j, w0, w, pc)
  {
  }

  lemma Releases(j: Job, w0: World, w: World, pc: PC)
    requires CanStart(j, w0) && Doing(j, w0, w, pc) && pc.Releasing?
    ensures Advances(j, w0, w, pc)
  {
    if j.cfg.backend.RedisStore? {
      assert Next(j.cfg, w, EventAt(j, pc)).locks == Redis.Del(w0.locks, j.k);
    }
  }

  // A step that nobody can object to: of a process in lease, or a login with a new token.
  predicate IsTame(w: World, e: Event) {
    && !e.Tick? && !e.Delete? && !e.Write? && !e.GrantLost? && !e.Fail?
    && (e.Redeem? ==> e.session.HasRefreshToken() && e.session.refreshToken !in w.issued)
    && (e.p in w.procs && InSection(w.procs[e.p]) ==> Leased(w, e.p))
  }

  ghost predicate TameSince(cfg: Config, start: Time, es: seq<Event>, n: nat) {
    |es| <= n ||
    var before, e := Run(cfg, start, es[..|es| - 1]), es[|es| - 1];
    TameSince(cfg, start, es[..|es| - 1], n) && (before.Some? ==> IsTame(before.value, e))
  }

  predicate IsRanked(pc: PC) {
    0 < Rank(pc) || pc.Finishing?
  }

  lemma SameRank(pc: PC, pc': PC)
    requires IsRanked(pc) && IsRanked(pc') && Rank(pc) == Rank(pc')
    ensures pc == pc'
  {
  }

  lemma RankFalls(pc: PC)
    requires Rank(pc) > 0
    ensures Rank(AfterPC(pc)) == Rank(pc) - 1 && IsRanked(AfterPC(pc))
  {
  }

  // Nothing stands in the way of the next step.
  lemma NextStep(j: Job, w0: World, w: World, pc: PC)
    requires CanStart(j, w0) && Doing(j, w0, w, pc) && Rank(pc) > 0
    ensures Advances(j, w0, w, pc)
  {
    match pc
    case Reading => Reads(j, w0, w, pc);
    case Entering => Reads(j, w0, w, pc);
    case Rereading => Reads(j, w0, w, pc);
    case CheckingCan => Checks(j, w0, w, pc);
    case CheckingTimeout => Checks(j, w0, w, pc);
    case Waiting => Locks(j, w0, w, pc);
    case Granting => IsAnswered(j, w0, w, pc);
    case Setting => Stores(j, w0, w, pc);
    case Releasing => Releases(j, w0, w, pc);
    case _ => Renews(j, w0, w, pc);
  }

  lemma StepIsTame(j: Job, w0: World, w: World, pc: PC)
    requires CanStart(j, w0) && Doing(j, w0, w, pc)
    ensures IsTame(w, EventAt(j, pc))
  {
  }

  lemma GoesOn(j: Job, start: Time, es: seq<Event>, w0: World, w: World, pc: PC, n: nat) returns (es': seq<Event>, w': World)
    requires CanStart(j, w0) && Run(j.cfg, start, es) == Some(w) && Doing(j, w0, w, pc) && Rank(pc) > 0
    requires n <= |es| && TameSince(j.cfg, start, es, n)
    ensures Run(j.cfg, start, es') == Some(w') && Doing(j, w0, w', AfterPC(pc))
    ensures es <= es' && TameSince(j.cfg, start, es', n)
  {
    NextStep(j, w0, w, pc);
    StepIsTame(j, w0, w, pc);
    RunSnoc(j.cfg, start, es, EventAt(j, pc));
    es', w' := es + [EventAt(j, pc)], Next(j.cfg, w, EventAt(j, pc));
  }

  lemma {:induction false} GoesOnTo(j: Job, start: Time, es: seq<Event>, w0: World, w: World, pc: PC, target: PC, n: nat)
    returns (es': seq<Event>, w': World)
    requires CanStart(j, w0) && Run(j.cfg, start, es) == Some(w) && Doing(j, w0, w, pc)
    requires n <= |es| && TameSince(j.cfg, start, es, n)
    requires Rank(target) <= Rank(pc) && IsRanked(pc) && IsRanked(target)
    ensures Run(j.cfg, start, es') == Some(w') && Doing(j, w0, w', target)
    ensures es <= es' && TameSince(j.cfg, start, es', n)
    decreases Rank(pc)
  {
    if Rank(pc) == Rank(target) {
      SameRank(pc, target);
      es', w' := es, w;
    } else {
      RankFalls(pc);
      var es1, w1 := GoesOn(j, start, es, w0, w, pc, n);
      es', w' := GoesOnTo(j, start, es1, w0, w1, AfterPC(pc), target, n);
    }
  }

  lemma Arrives(j: Job, w: World)
    requires CanStart(j, w)
    ensures Enabled(j.cfg, w, Arrive(j.p, Endpoint, j.k)) && IsTame(w, Arrive(j.p, Endpoint, j.k))
    ensures Doing(j, w, Next(j.cfg, w, Arrive(j.p, Endpoint, j.k)), Reading)
  {
  }

  /** A refresh that arrives can get to any of its program counters. */
  lemma GetsTo(j: Job, start: Time, es: seq<Event>, w: World, target: PC) returns (es': seq<Event>, w': World)
    requires CanStart(j, w) && Run(j.cfg, start, es) == Some(w)
    requires IsRanked(target)
    ensures Run(j.cfg, start, es') == Some(w') && Doing(j, w, w', target)
    ensures es <= es' && TameSince(j.cfg, start, es', |es|)
  {
    Arrives(j, w);
    RunSnoc(j.cfg, start, es, Arrive(j.p, Endpoint, j.k));
    var arrived := es + [Arrive(j.p, Endpoint, j.k)];
    assert TameSince(j.cfg, start, es, |es|);
    es', w' := GoesOnTo(j, start, arrived, w, Next(j.cfg, w, Arrive(j.p, Endpoint, j.k)), Reading, target, |es|);
  }

  // ----------------------------------------------------- tame continuations

  /** A tame continuation keeps the hypotheses. */
  lemma {:induction false} TameIsOrderly(cfg: Config, start: Time, es: seq<Event>, n: nat, k: string)
    requires n <= |es| && Run(cfg, start, es).Some? && TameSince(cfg, start, es, n)
    requires Orderly(cfg, start, es[..n], k) && WritesUnspent(cfg, start, es[..n], k)
    ensures Orderly(cfg, start, es, k) && WritesUnspent(cfg, start, es, k)
  {
    if |es| == n {
      assert es[..n] == es;
    } else {
      assert es[..|es| - 1][..n] == es[..n];
      TameIsOrderly(cfg, start, es[..|es| - 1], n, k);
      OwnLedger(cfg, start, es[..|es| - 1], k);
    }
  }

  lemma {:induction false} TameIsRefreshable(cfg: Config, start: Time, es: seq<Event>, n: nat)
    requires n <= |es| && Run(cfg, start, es).Some? && TameSince(cfg, start, es, n)
    requires forall e :: e in es[..n] && e.Redeem? ==> e.session.HasRefreshToken()
    ensures forall e :: e in es && e.Redeem? ==> e.session.HasRefreshToken()
  {
    if |es| == n {
      assert es[..n] == es;
    } else {
      assert es[..|es| - 1][..n] == es[..n];
      TameIsRefreshable(cfg, start, es[..|es| - 1], n);
      assert es == es[..|es| - 1] + [es[|es| - 1]];
    }
  }

  // -------------------------------------------------------------- logins

  // Process p logs in with tokens d that are good for the given time.
  datatype Entry = Entry(cfg: Config, p: nat, d: Data, expiresIn: int)

  // The session that it writes.
  function Stamped(i: Entry, now: Time): Data {
    Touched(i.cfg.session, i.d.(meta := NewMetadata(now, i.expiresIn, i.cfg.session.maxLifetime)), now)
  }

  function RedeemOf(i: Entry): Event {
    Redeem(i.p, i.d, i.expiresIn, RefreshTokenData(i.cfg.clientID, i.d.refreshToken, i.d.externalSessionID),
           Identification(true, false, Some(i.d.externalSessionID), "", ""))
  }

  predicate LoggingIn(i: Entry, w0: World, w: World, pc: PC)
    requires i.p !in w0.procs
  {
    && w.now == w0.now && w.store == w0.store && w.locks == w0.locks
    && i.p in w.procs && w.procs == w0.procs[i.p := w.procs[i.p]]
    && w.live == LiveAfter(i.cfg, w0, RedeemOf(i)) && w.issued == IssuedAfter(w0, RedeemOf(i))
    && var pr := w.procs[i.p];
    && pr.key == SessionKey(i.cfg, i.d) && pr.pc == pc && pr.expiresIn == i.expiresIn
    && pr.data == (if pc.Stamping? then i.d
                   else if pc.Limiting? then i.d.(meta := NewMetadata(w.now, i.expiresIn, i.cfg.session.maxLifetime))
                   else Stamped(i, w.now))
  }

  lemma StampsAndLimits(i: Entry, w0: World, w: World, pc: PC)
    requires i.p !in w0.procs && LoggingIn(i, w0, w, pc) && (pc.Stamping? || pc.Limiting?)
    ensures LoggingIn(i, w0, Next(i.cfg, w, Step(i.p)), if pc.Stamping? then Limiting else Writing)
    ensures IsTame(w, Step(i.p))
  {
  }

  /** A login gets to the point where it writes its session. */
  lemma LogsIn(i: Entry, start: Time, es: seq<Event>, w: World) returns (es': seq<Event>, w': World)
    requires Run(i.cfg, start, es) == Some(w) && i.p !in w.procs
    ensures Run(i.cfg, start, es') == Some(w') && LoggingIn(i, w, w', Writing) && es <= es'
    ensures i.d.HasRefreshToken() && i.d.refreshToken !in w.issued ==> TameSince(i.cfg, start, es', |es|)
  {
    RunSnoc(i.cfg, start, es, RedeemOf(i));
    var es1, w1 := es + [RedeemOf(i)], Next(i.cfg, w, RedeemOf(i));
    StampsAndLimits(i, w, w1, Stamping);
    RunSnoc(i.cfg, start, es1, Step(i.p));
    var es2, w2 := es1 + [Step(i.p)], Next(i.cfg, w1, Step(i.p));
    StampsAndLimits(i, w, w2, Limiting);
    RunSnoc(i.cfg, start, es2, Step(i.p));
    es', w' := es2 + [Step(i.p)], Next(i.cfg, w2, Step(i.p));
    assert TameSince(i.cfg, start, es, |es|);
  }
}
