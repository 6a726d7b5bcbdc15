/**
  Mutual exclusion with leased locks, for every run of the protocol and with
  no hypothesis on it unless one is named.
 */
module ProtocolExclusion {
  import opened SessionTime
  import opened SessionData
  import opened Wrappers
  import Redis
  import opened Protocol

  ghost predicate TicketsApart(w: World) {
    && (forall p :: p in w.procs && Holding(w.procs[p]) ==> w.procs[p].ticket < w.tickets)
    && (forall p, q :: p in w.procs && q in w.procs && p != q && Holding(w.procs[p]) && Holding(w.procs[q]) ==>
          w.procs[p].ticket != w.procs[q].ticket)
    && (forall k :: k in w.locks ==> w.locks[k].value < w.tickets)
  }

  // An unexpired lease is backed by the lock entry.
  ghost predicate LeasesBacked(w: World) {
    forall p :: p in w.procs && Holding(w.procs[p]) && w.now < w.procs[p].lease ==>
      Owns(w, p)
  }

  ghost predicate LockInv(cfg: Config, w: World) {
    TicketsApart(w) && (cfg.backend.RedisStore? ==> LeasesBacked(w))
  }

  // The lock entry of p's key is p's, and its lease is the one p was given.
  predicate Owns(w: World, p: nat)
    requires p in w.procs
  {
    var pr := w.procs[p];
    pr.key in w.locks && w.locks[pr.key] == Redis.Slot(pr.ticket, Some(pr.lease))
  }

  // p holds, and the entry with p's owner value is still alive.
  predicate OwnsUnexpired(w: World, p: nat) {
    && p in w.procs
    && Holding(w.procs[p])
    && Redis.Get(w.locks, w.now, w.procs[p].key) == Some(w.procs[p].ticket)
  }

  lemma AdvanceFrame(cfg: Config, now: Time, store: Redis.Keyspace<Data>, pr: Proc)
    requires CanStep(pr.pc)
    ensures var pr' := Advance(cfg, now, store, pr);
      && pr'.key == pr.key && pr'.role == pr.role && pr'.ticket == pr.ticket && pr'.lease == pr.lease
      && pr'.stored == pr.stored && pr'.response == pr.response
      && (Holding(pr') <==> Holding(pr))
      && (InSection(pr') ==> InSection(pr))
      && (InFlight(pr') ==> InFlight(pr))
  {
  }

  // A step of p that touches neither the lock table nor p's own lock.
  lemma LockInvOther(cfg: Config, w: World, w': World, p: nat)
    requires LockInv(cfg, w)
    requires p in w'.procs && w'.procs == w.procs[p := w'.procs[p]]
    requires w'.now == w.now && w'.locks == w.locks && w'.tickets == w.tickets
    requires Holding(w'.procs[p]) ==>
               && p in w.procs && Holding(w.procs[p])
               && w'.procs[p].key == w.procs[p].key
               && w'.procs[p].ticket == w.procs[p].ticket && w'.procs[p].lease == w.procs[p].lease
    ensures LockInv(cfg, w')
  {
    forall q | q in w'.procs && Holding(w'.procs[q]) ensures q in w.procs && Holding(w.procs[q]) {
    }
    if cfg.backend.RedisStore? {
      forall q | q in w'.procs && Holding(w'.procs[q]) && w'.now < w'.procs[q].lease ensures Owns(w', q) {
        assert Owns(w, q);
      }
    }
  }

  lemma TicketsAfterAcquire(cfg: Config, w: World, e: Event)
    requires Enabled(cfg, w, e) && TicketsApart(w)
    requires e.Acquire? || e.AcquireLost?
    ensures TicketsApart(Next(cfg, w, e))
  {
  }

  // Whether or not p hears of it, the lock was free when it was taken.
  lemma LockInvAcquire(cfg: Config, w: World, e: Event)
    requires Enabled(cfg, w, e) && LockInv(cfg, w)
    requires e.Acquire? || e.AcquireLost?
    ensures LockInv(cfg, Next(cfg, w, e))
  {
    var w' := Next(cfg, w, e);
    TicketsAfterAcquire(cfg, w, e);
    if cfg.backend.RedisStore? {
      forall q | q in w'.procs && Holding(w'.procs[q]) && w'.now < w'.procs[q].lease ensures Owns(w', q) {
        if q != e.p {
          assert Owns(w, q);
        }
      }
    }
  }

  lemma LockInvRelease(cfg: Config, w: World, p: nat, acked: bool)
    requires Enabled(cfg, w, Release(p, acked)) && LockInv(cfg, w)
    ensures LockInv(cfg, Next(cfg, w, Release(p, acked)))
  {
    var w' := Next(cfg, w, Release(p, acked));
    assert TicketsApart(w');
    if cfg.backend.RedisStore? {
      forall q | q in w'.procs && Holding(w'.procs[q]) && w'.now < w'.procs[q].lease ensures Owns(w', q) {
        assert Owns(w, q);
      }
    }
  }

  lemma LockInvTick(cfg: Config, w: World, w': World)
    requires LockInv(cfg, w)
    requires w'.now >= w.now && w'.locks == w.locks && w'.tickets == w.tickets && w'.procs == w.procs
    ensures LockInv(cfg, w')
  {
    if cfg.backend.RedisStore? {
      forall q | q in w'.procs && Holding(w'.procs[q]) && w'.now < w'.procs[q].lease ensures Owns(w', q) {
        assert Owns(w, q);
      }
    }
  }

  // Only Acquire and Release change what a process knows of its lock.
  lemma LockFrame(cfg: Config, w: World, e: Event)
    requires Enabled(cfg, w, e) && !e.Tick? && !e.Delete? && !e.Acquire?
    ensures var pr' := ProcAfter(cfg, w, e);
      Holding(pr') ==>
        && e.p in w.procs && Holding(w.procs[e.p])
        && pr'.key == w.procs[e.p].key && pr'.ticket == w.procs[e.p].ticket && pr'.lease == w.procs[e.p].lease
  {
    if e.Step? {
      AdvanceFrame(cfg, w.now, w.store, w.procs[e.p]);
    }
  }

  lemma LockInvLocal(cfg: Config, w: World, e: Event)
    requires Enabled(cfg, w, e) && LockInv(cfg, w)
    requires !e.Tick? && !e.Delete? && !e.Acquire? && !e.AcquireLost? && !e.Release?
    ensures LockInv(cfg, Next(cfg, w, e))
  {
    LockFrame(cfg, w, e);
    LockInvOther(cfg, w, Next(cfg, w, e), e.p);
  }

  lemma LockInvStep(cfg: Config, w: World, e: Event)
    requires Enabled(cfg, w, e) && LockInv(cfg, w)
    ensures LockInv(cfg, Next(cfg, w, e))
  {
    match e
    case Tick(_) => LockInvTick(cfg, w, Next(cfg, w, e));
    case Delete(_) => LockInvTick(cfg, w, Next(cfg, w, e));
    case Acquire(_) => LockInvAcquire(cfg, w, e);
    case AcquireLost(_) => LockInvAcquire(cfg, w, e);
    case Release(p, acked) => LockInvRelease(cfg, w, p, acked);
    case _ => LockInvLocal(cfg, w, e);
  }

  lemma {:induction false} LockInvAlways(cfg: Config, start: Time, es: seq<Event>)
    requires Run(cfg, start, es).Some?
    ensures LockInv(cfg, Run(cfg, start, es).value)
  {
    if es != [] {
      LockInvAlways(cfg, start, es[..|es| - 1]);
      LockInvStep(cfg, Run(cfg, start, es[..|es| - 1]).value, es[|es| - 1]);
    }
  }

  // ---------------------------------------------------------- theorems

  /** At most one process owns an unexpired lock on a key, in every reachable state. */
  lemma AtMostOneOwner(cfg: Config, start: Time, es: seq<Event>, p: nat, q: nat)
    requires Run(cfg, start, es).Some?
    requires var w := Run(cfg, start, es).value;
      OwnsUnexpired(w, p) && OwnsUnexpired(w, q) && w.procs[p].key == w.procs[q].key
    ensures p == q
  {
    LockInvAlways(cfg, start, es);
  }

  /** With the Redis store, processes that respect their leases are alone in their critical sections. */
  lemma MutualExclusion(cfg: Config, w: World, p: nat, q: nat)
    requires cfg.backend.RedisStore? && LockInv(cfg, w)
    requires Leased(w, p) && Leased(w, q) && w.procs[p].key == w.procs[q].key
    ensures p == q
  {
    assert Owns(w, p) && Owns(w, q);
  }

  lemma MutualExclusionAlways(cfg: Config, start: Time, es: seq<Event>, p: nat, q: nat)
    requires cfg.backend.RedisStore?
    requires Run(cfg, start, es).Some?
    requires var w := Run(cfg, start, es).value;
      Leased(w, p) && Leased(w, q) && w.procs[p].key == w.procs[q].key
    ensures p == q
  {
    LockInvAlways(cfg, start, es);
    MutualExclusion(cfg, Run(cfg, start, es).value, p, q);
  }

  /** However late p releases, and whatever became of its lease, no other owner loses its lock. */
  lemma LateReleaseIsHarmless(cfg: Config, start: Time, es: seq<Event>, p: nat, acked: bool, q: nat)
    requires Run(cfg, start, es + [Release(p, acked)]).Some?
    requires Run(cfg, start, es).Some? && OwnsUnexpired(Run(cfg, start, es).value, q) && q != p
    ensures OwnsUnexpired(Run(cfg, start, es + [Release(p, acked)]).value, q)
  {
    RunSnoc(cfg, start, es, Release(p, acked));
    LockInvAlways(cfg, start, es);
  }

  /** A process that gets the lock owns it for ten seconds, and a release in that time frees it. */
  lemma LocksAreTakenAndFreed(cfg: Config, w: World, p: nat)
    requires cfg.backend.RedisStore?
    ensures Enabled(cfg, w, Acquire(p)) ==>
              var w' := Next(cfg, w, Acquire(p));
              && OwnsUnexpired(w', p) && Leased(w', p) && w'.procs[p].lease == w.now + 10 * SECOND
              && forall t :: Redis.Has(w'.locks, t, w.procs[p].key) <==> t < w.now + 10 * SECOND
    ensures Enabled(cfg, w, Release(p, true)) && OwnsUnexpired(w, p) ==>
              !Redis.Has(Next(cfg, w, Release(p, true)).locks, w.now, w.procs[p].key)
  {
  }

  /** A lock is released only by a process whose own Acquire succeeded. */
  lemma {:induction false} ReleaseNeedsAcquire(cfg: Config, start: Time, es: seq<Event>, p: nat)
    requires Run(cfg, start, es).Some?
    requires var w := Run(cfg, start, es).value; p in w.procs && Holding(w.procs[p])
    ensures Acquire(p) in es
  {
    var es0, e := es[..|es| - 1], es[|es| - 1];
    var w0 := Run(cfg, start, es0).value;
    if e != Acquire(p) {
      if e.Step? {
        AdvanceFrame(cfg, w0.now, w0.store, w0.procs[e.p]);
      }
      ReleaseNeedsAcquire(cfg, start, es0, p);
    }
  }

  lemma RunSnoc(cfg: Config, start: Time, es: seq<Event>, e: Event)
    ensures (es + [e])[..|es + [e]| - 1] == es
    ensures Run(cfg, start, es + [e]) ==
            if Run(cfg, start, es).Some? && Enabled(cfg, Run(cfg, start, es).value, e)
            then Some(Next(cfg, Run(cfg, start, es).value, e)) else None
  {
    assert (es + [e])[..|es + [e]| - 1] == es;
  }
}
