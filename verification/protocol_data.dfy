/**
  What a request's local variables say at each point of its program, and how
  they relate to the store when the lease and intrusion hypotheses hold.
 */
module ProtocolData {
  import opened SessionTime
  import opened SessionData
  import opened Wrappers
  import Redis
  import opened Protocol
  import opened ProtocolExclusion

  /** The checks a refresh has passed, and what its copy of the session is. */
  ghost predicate Sane(cfg: Config, now: Time, pr: Proc) {
    && (Armed(pr) ==> pr.at.reread <= now)
    && ((pr.pc.CheckingTimeout? || PastTimeoutCheck(pr)) ==>
          pr.at.reread <= pr.at.can <= now && CanRefresh(cfg.session, pr.seen, pr.at.can))
    && (PastTimeoutCheck(pr) ==>
          pr.at.can <= pr.at.idle <= now && !IsTimedOut(cfg.session, pr.seen, pr.at.idle))
    && (Armed(pr) && !pr.pc.Extending? && !pr.pc.Updating? && !pr.pc.Setting? ==> pr.data == pr.seen)
    && (pr.pc.Extending? || pr.pc.Updating? || pr.pc.Setting? ==> pr.at.idle <= pr.at.renew <= now)
    && (pr.pc.Extending? ==> pr.data == Renewed(pr.seen, pr.response, pr.at.renew))
    && (pr.pc.Updating? || pr.pc.Setting? ==>
          pr.at.renew <= pr.at.extend <= now && pr.data == Replacement(cfg, pr))
    && (!pr.pc.Updating? && !pr.pc.Setting? && !pr.pc.Releasing? && !pr.pc.Finishing? && !pr.pc.Done? ==> !pr.stored)
  }

  // What the refresh of pr writes back.
  function Replacement(cfg: Config, pr: Proc): Data {
    Touched(cfg.session, Renewed(pr.seen, pr.response, pr.at.renew), pr.at.extend)
  }

  ghost predicate AllSane(cfg: Config, w: World) {
    forall p :: p in w.procs ==> Sane(cfg, w.now, w.procs[p])
  }

  lemma SaneAdvance(cfg: Config, now: Time, store: Redis.Keyspace<Data>, pr: Proc)
    requires CanStep(pr.pc) && Sane(cfg, now, pr)
    ensures Sane(cfg, now, Advance(cfg, now, store, pr))
  {
  }

  lemma SaneLater(cfg: Config, now: Time, later: Time, pr: Proc)
    requires now <= later && Sane(cfg, now, pr)
    ensures Sane(cfg, later, pr)
  {
  }

  lemma SaneOwnStep(cfg: Config, w: World, e: Event)
    requires Enabled(cfg, w, e) && !e.Tick? && !e.Delete?
    requires e.p in w.procs ==> Sane(cfg, w.now, w.procs[e.p])
    ensures Sane(cfg, w.now, ProcAfter(cfg, w, e))
  {
    if e.Step? {
      SaneAdvance(cfg, w.now, w.store, w.procs[e.p]);
    }
  }

  lemma SaneStep(cfg: Config, w: World, e: Event)
    requires Enabled(cfg, w, e) && AllSane(cfg, w)
    ensures AllSane(cfg, Next(cfg, w, e))
  {
    var w' := Next(cfg, w, e);
    if !e.Tick? && !e.Delete? {
      SaneOwnStep(cfg, w, e);
      forall q | q in w'.procs ensures Sane(cfg, w'.now, w'.procs[q]) {
      }
    } else {
      forall q | q in w'.procs ensures Sane(cfg, w'.now, w'.procs[q]) {
        SaneLater(cfg, w.now, w'.now, w.procs[q]);
      }
    }
  }

  lemma {:induction false} SaneAlways(cfg: Config, start: Time, es: seq<Event>)
    requires Run(cfg, start, es).Some?
    ensures AllSane(cfg, Run(cfg, start, es).value)
  {
    if es != [] {
      SaneAlways(cfg, start, es[..|es| - 1]);
      SaneStep(cfg, Run(cfg, start, es[..|es| - 1]).value, es[|es| - 1]);
    }
  }

  // -------------------------------------------- agreement with the store

  // The stored session is the one p re-read or, once its update took effect, the one p wrote.
  ghost predicate Agrees(w: World, p: nat)
    requires p in w.procs
  {
    var pr := w.procs[p];
    Redis.Get(w.store, w.now, pr.key) == Some(if pr.stored then pr.data else pr.seen)
  }

  ghost predicate Agreement(w: World, k: string) {
    forall p :: Leased(w, p) && Armed(w.procs[p]) && w.procs[p].key == k ==> Agrees(w, p)
  }

  lemma AgreesOwnStep(cfg: Config, w: World, e: Event)
    requires Enabled(cfg, w, e) && !e.Tick? && !e.Delete? && !e.Write? && !e.Store?
    requires e.p in w.procs ==>
               && Sane(cfg, w.now, w.procs[e.p])
               && (Leased(w, e.p) && Armed(w.procs[e.p]) ==> Agrees(w, e.p))
    requires Leased(Next(cfg, w, e), e.p) && Armed(Next(cfg, w, e).procs[e.p])
    ensures Agrees(Next(cfg, w, e), e.p)
  {
    if e.Step? {
      AdvanceFrame(cfg, w.now, w.store, w.procs[e.p]);
    }
  }

  // A step of one process that leaves the store alone.
  lemma AgreementLocal(cfg: Config, w: World, e: Event, k: string)
    requires Enabled(cfg, w, e) && AllSane(cfg, w) && Agreement(w, k)
    requires !e.Tick? && !e.Delete? && !e.Write? && !e.Store?
    ensures Agreement(Next(cfg, w, e), k)
  {
    var w' := Next(cfg, w, e);
    forall q | Leased(w', q) && Armed(w'.procs[q]) && w'.procs[q].key == k ensures Agrees(w', q) {
      if q != e.p {
        assert Leased(w, q) && Agrees(w, q);
      } else {
        if e.Step? {
          AdvanceFrame(cfg, w.now, w.store, w.procs[e.p]);
        }
        AgreesOwnStep(cfg, w, e);
      }
    }
  }

  lemma AgreementStore(cfg: Config, w: World, e: Event, k: string)
    requires cfg.backend.RedisStore?
    requires Enabled(cfg, w, e) && LockInv(cfg, w) && AllSane(cfg, w) && Agreement(w, k)
    requires InLease(w, e, k) && e.Store?
    ensures Agreement(Next(cfg, w, e), k)
  {
    var w' := Next(cfg, w, e);
    forall q | Leased(w', q) && Armed(w'.procs[q]) && w'.procs[q].key == k ensures Agrees(w', q) {
      assert Leased(w, q) && Agrees(w, q);
      if w.procs[e.p].key == k {
        MutualExclusion(cfg, w, q, e.p);
      }
    }
  }

  lemma AgreementOutside(cfg: Config, w: World, e: Event, k: string)
    requires cfg.backend.RedisStore?
    requires Enabled(cfg, w, e) && AllSane(cfg, w) && Agreement(w, k) && NoIntrusion(w, e, k)
    requires e.Tick? || e.Delete? || e.Write?
    ensures Agreement(Next(cfg, w, e), k)
  {
    var w' := Next(cfg, w, e);
    forall q | Leased(w', q) && Armed(w'.procs[q]) && w'.procs[q].key == k ensures Agrees(w', q) {
      assert Leased(w, q) && Agrees(w, q);
    }
  }

  /** A process in its section, in lease, holds what is stored: whatever other sessions go through, and others' crashes. */
  lemma {:induction false} AgreementAlways(cfg: Config, start: Time, es: seq<Event>, k: string)
    requires cfg.backend.RedisStore?
    requires Run(cfg, start, es).Some? && Disciplined(cfg, start, es, k)
    ensures Agreement(Run(cfg, start, es).value, k)
  {
    if es != [] {
      var es0, e := es[..|es| - 1], es[|es| - 1];
      var w0 := Run(cfg, start, es0).value;
      AgreementAlways(cfg, start, es0, k);
      LockInvAlways(cfg, start, es0);
      SaneAlways(cfg, start, es0);
      if e.Store? {
        AgreementStore(cfg, w0, e, k);
      } else if e.Tick? || e.Delete? || e.Write? {
        AgreementOutside(cfg, w0, e, k);
      } else {
        AgreementLocal(cfg, w0, e, k);
      }
    }
  }
}
