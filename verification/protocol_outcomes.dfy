/**
  How requests end: after a bounded number of events of their own, from
  wherever they are, and with an error only for a cause that the run shows.
 */
module ProtocolOutcomes {
  import opened SessionTime
  import opened SessionData
  import opened SessionKeys
  import opened Wrappers
  import Redis
  import opened Protocol
  import opened ProtocolExclusion
  import opened ProtocolData

  predicate IsOf(e: Event, p: nat) {
    !e.Tick? && !e.Delete? && e.p == p
  }

  // ------------------------------------------------------- bounded work

  // How many events a request that meets no obstacle has before it.
  function Remaining(pc: PC): nat {
    match pc
    case Stamping => 3 case Limiting => 2 case Writing => 1
    case Reading => 15 case CheckingIdle => 14 case Deciding => 13 case Entering => 12 case Waiting => 11
    case Rereading => 10 case CheckingCan => 9 case CheckingTimeout => 8 case Granting => 7 case Renewing => 6
    case Extending => 5 case Updating => 4 case Setting => 3 case Releasing => 2 case Finishing => 1
    case Done => 0
  }

  function Taken(es: seq<Event>, p: nat): nat {
    if es == [] then 0 else Taken(es[..|es| - 1], p) + (if IsOf(es[|es| - 1], p) then 1 else 0)
  }

  // What is done over again, because a write or an update has not been heard of.
  function Repeated(es: seq<Event>, p: nat): nat {
    if es == [] then 0
    else
      var e := es[|es| - 1];
      Repeated(es[..|es| - 1], p) + (if e == Write(p, false) then 1 else if e == Store(p, false) then 2 else 0)
  }

  lemma OwnEventsAdvance(cfg: Config, w: World, e: Event)
    requires Enabled(cfg, w, e) && !e.Tick? && !e.Delete? && e.p in w.procs
    ensures Remaining(ProcAfter(cfg, w, e).pc) + 1 <= Remaining(w.procs[e.p].pc) + Repeated([e], e.p)
    ensures !w.procs[e.p].pc.Done?
  {
    assert [e][..|[e]| - 1] == [];
  }

  /** A request takes at most 16 events, apart from what it repeats; whatever others do. */
  lemma {:induction false} WorkIsBounded(cfg: Config, start: Time, es: seq<Event>, p: nat)
    requires Run(cfg, start, es).Some?
    ensures var w := Run(cfg, start, es).value;
      if p in w.procs then Taken(es, p) + Remaining(w.procs[p].pc) <= 16 + Repeated(es, p)
      else Taken(es, p) == Repeated(es, p) == 0
  {
    if es != [] {
      var es0, e := es[..|es| - 1], es[|es| - 1];
      WorkIsBounded(cfg, start, es0, p);
      var w := Run(cfg, start, es0).value;
      if IsOf(e, p) && p in w.procs {
        OwnEventsAdvance(cfg, w, e);
        assert [e][..|[e]| - 1] == [];
      }
    }
  }

  // ------------------------------------------------------------- ending

  // An event that brings p nearer to its end, alone and whatever the store holds.
  function Nearer(w: World, p: nat): Event
    requires p in w.procs
  {
    var pc := w.procs[p].pc;
    if pc.Deciding? then Decide(p, w.now, w.now)
    else if pc.Waiting? || pc.Granting? then Fail(p)
    else if pc.Writing? then Write(p, true)
    else if pc.Setting? then Store(p, true)
    else if pc.Releasing? then Release(p, true)
    else Step(p)
  }

  lemma NearerIsEnabled(cfg: Config, w: World, p: nat)
    requires p in w.procs && !w.procs[p].pc.Done?
    requires w.procs[p].pc.Deciding? ==> w.procs[p].firstIdle <= w.now
    ensures var e := Nearer(w, p); IsOf(e, p) && Enabled(cfg, w, e) && Repeated([e], p) == 0
  {
    assert [Nearer(w, p)][..0] == [];
  }

  lemma NearerIsNearer(cfg: Config, start: Time, es: seq<Event>, w: World, p: nat)
    requires Run(cfg, start, es) == Some(w) && p in w.procs && !w.procs[p].pc.Done?
    requires Caused(cfg, start, es, w.now, p, w.procs[p])
    ensures var e := Nearer(w, p);
      var w' := Run(cfg, start, es + [e]);
      IsOf(e, p) && w'.Some? && p in w'.value.procs && Remaining(w'.value.procs[p].pc) < Remaining(w.procs[p].pc)
  {
    var e := Nearer(w, p);
    NearerIsEnabled(cfg, w, p);
    OwnEventsAdvance(cfg, w, e);
    RunSnoc(cfg, start, es, e);
  }

  /** No request ever gets stuck: from every reachable state it can end by itself, within 15 events. */
  lemma {:induction false} RequestsCanEnd(cfg: Config, start: Time, es: seq<Event>, p: nat) returns (more: seq<Event>)
    requires Run(cfg, start, es).Some? && p in Run(cfg, start, es).value.procs
    ensures |more| <= 15 && |more| <= Remaining(Run(cfg, start, es).value.procs[p].pc)
    ensures forall e :: e in more ==> IsOf(e, p)
    ensures Run(cfg, start, es + more).Some? && At(Run(cfg, start, es + more).value, p, Done)
    decreases Remaining(Run(cfg, start, es).value.procs[p].pc)
  {
    var w := Run(cfg, start, es).value;
    if w.procs[p].pc.Done? {
      more := [];
      assert es + more == es;
    } else {
      CausedAt(cfg, start, es, p);
      NearerIsNearer(cfg, start, es, w, p);
      var e := Nearer(w, p);
      var rest := RequestsCanEnd(cfg, start, es + [e], p);
      more := [e] + rest;
      assert es + more == es + [e] + rest;
    }
  }

  // ------------------------------------------------------------ updates

  // The nth event was a read of k by p that found it, and p has done nothing since.
  ghost predicate LastFound(cfg: Config, start: Time, es: seq<Event>, n: nat, p: nat, k: string)
    requires n < |es|
  {
    var w := Run(cfg, start, es[..n]);
    && es[n] == Step(p) && w.Some? && Redis.Has(w.value.store, w.value.now, k)
    && forall i :: n < i < |es| ==> !IsOf(es[i], p)
  }

  /** Nothing is set but by a request whose last event has found the entry, also when the update is a repeated one. */
  lemma {:induction false} SetsFollowReads(cfg: Config, start: Time, es: seq<Event>, p: nat) returns (n: nat)
    requires Run(cfg, start, es).Some? && At(Run(cfg, start, es).value, p, Setting)
    ensures n < |es| && LastFound(cfg, start, es, n, p, Run(cfg, start, es).value.procs[p].key)
  {
    var es0, e := es[..|es| - 1], es[|es| - 1];
    if IsOf(e, p) {
      n := |es| - 1;
    } else {
      n := SetsFollowReads(cfg, start, es0, p);
      assert es0[..n] == es[..n];
    }
  }

  // ------------------------------------------------------------- causes

  // After the first n events there was no session to be read under k.
  ghost predicate Missing(cfg: Config, start: Time, es: seq<Event>, n: nat, k: string)
    requires n <= |es|
  {
    var w := Run(cfg, start, es[..n]);
    w.Some? && !Redis.Has(w.value.store, w.value.now, k)
  }

  ghost predicate WasMissing(cfg: Config, start: Time, es: seq<Event>, k: string) {
    exists n: nat :: n <= |es| && Missing(cfg, start, es, n, k)
  }

  // p has met an error of the store, the lock or the provider, or lost an answer.
  ghost predicate Faulted(es: seq<Event>, p: nat) {
    exists e :: e in es && IsOf(e, p) && (e.Fail? || e.AcquireLost? || e.GrantLost?)
  }

  // The session whose token is to be handed out.
  function Handed(pr: Proc): Data {
    if pr.refresh.Good? then pr.refresh.data else pr.first
  }

  ghost predicate WasTimedOut(cfg: Config, now: Time, d: Data) {
    exists t :: t <= now && IsTimedOut(cfg.session, d, t)
  }

  // What the run shows for an outcome of p.
  ghost predicate HasCause(cfg: Config, start: Time, es: seq<Event>, now: Time, p: nat, pr: Proc, o: Outcome) {
    o.Bad? ==>
      match o.error
      case KeyNotFound => WasMissing(cfg, start, es, pr.key)
      case SessionInactive => WasTimedOut(cfg, now, pr.first) || WasTimedOut(cfg, now, pr.seen)
      case InvalidState => Deny(p) in es
      case LockNotAcquired => Fail(p) in es
      case Unexpected => Faulted(es, p)
      case NoAccessToken => pr.role.Proxy? && Handed(pr).accessToken == ""
      case ExpiredAccessToken => pr.role.Proxy? && Handed(pr).meta.expireAt < pr.finishedAt <= now
      case CookieNotFound => false
  }

  // Which outcomes are there at which point, and who gets there.
  predicate Phased(now: Time, pr: Proc) {
    && (pr.pc.Releasing? || pr.pc.Finishing? ==> pr.refresh != Pending)
    && (pr.refresh != Pending ==> pr.pc.Releasing? || pr.pc.Finishing? || pr.pc.Done?)
    && (pr.pc.Done? <==> pr.result != Pending)
    && (pr.pc.Deciding? ==> pr.firstIdle <= now)
    && (Unwritten(pr) ==> pr.role.Login?) && (pr.role.Login? ==> Unwritten(pr) || pr.pc.Done?)
    && (pr.role.Login? && pr.pc.Done? ==> pr.result == Good(pr.data))
    && (pr.pc.CheckingIdle? || pr.pc.Deciding? ==> pr.role.Proxy?)
    && (pr.refresh.Bad? ==> pr.refresh.error !in {NoAccessToken, ExpiredAccessToken})
  }

  ghost predicate Caused(cfg: Config, start: Time, es: seq<Event>, now: Time, p: nat, pr: Proc) {
    && Phased(now, pr)
    && HasCause(cfg, start, es, now, p, pr, pr.refresh)
    && HasCause(cfg, start, es, now, p, pr, pr.result)
  }

  lemma PhasedStep(cfg: Config, now: Time, store: Redis.Keyspace<Data>, pr: Proc)
    requires CanStep(pr.pc) && Phased(now, pr)
    ensures Phased(now, Advance(cfg, now, store, pr))
  {
  }

  lemma CausedLater(cfg: Config, start: Time, es: seq<Event>, e: Event, now: Time, later: Time, p: nat, pr: Proc)
    requires Caused(cfg, start, es, now, p, pr) && now <= later
    ensures Caused(cfg, start, es + [e], later, p, pr)
  {
    if WasMissing(cfg, start, es, pr.key) {
      var n: nat :| n <= |es| && Missing(cfg, start, es, n, pr.key);
      assert (es + [e])[..n] == es[..n];
      assert Missing(cfg, start, es + [e], n, pr.key);
    }
    if Faulted(es, p) {
      var f :| f in es && IsOf(f, p) && (f.Fail? || f.AcquireLost? || f.GrantLost?);
      assert f in es + [e];
    }
  }

  // A local step: a read that finds nothing is the only one with a cause outside.
  lemma CausedByStep(cfg: Config, start: Time, es: seq<Event>, w: World, p: nat)
    requires p in w.procs && CanStep(w.procs[p].pc) && Caused(cfg, start, es, w.now, p, w.procs[p])
    requires !Redis.Has(w.store, w.now, w.procs[p].key) ==> WasMissing(cfg, start, es, w.procs[p].key)
    ensures Caused(cfg, start, es, w.now, p, Advance(cfg, w.now, w.store, w.procs[p]))
  {
    PhasedStep(cfg, w.now, w.store, w.procs[p]);
  }

  // Any other event is its own cause.
  lemma CausedByEvent(cfg: Config, start: Time, es: seq<Event>, w: World, e: Event)
    requires Enabled(cfg, w, e) && !e.Tick? && !e.Delete? && !e.Step? && e in es
    requires e.p in w.procs ==> Caused(cfg, start, es, w.now, e.p, w.procs[e.p])
    ensures Caused(cfg, start, es, w.now, e.p, ProcAfter(cfg, w, e))
  {
    if e.Fail? || e.AcquireLost? || e.GrantLost? {
      assert Faulted(es, e.p);
    }
  }

  /** In every run, whatever a request ends with has happened to it. */
  lemma {:induction false} CausedAlways(cfg: Config, start: Time, es: seq<Event>)
    requires Run(cfg, start, es).Some?
    ensures var w := Run(cfg, start, es).value;
      forall p :: p in w.procs ==> Caused(cfg, start, es, w.now, p, w.procs[p])
  {
    if es != [] {
      var es0, e := es[..|es| - 1], es[|es| - 1];
      var w, w' := Run(cfg, start, es0).value, Run(cfg, start, es).value;
      CausedAlways(cfg, start, es0);
      assert es == es0 + [e];
      forall p | p in w'.procs ensures Caused(cfg, start, es, w'.now, p, w'.procs[p]) {
        if p in w.procs {
          CausedLater(cfg, start, es0, e, w.now, w'.now, p, w.procs[p]);
        }
        if IsOf(e, p) {
          if e.Step? {
            assert es[..|es0|] == es0;
            assert !Redis.Has(w.store, w.now, w.procs[p].key) ==> Missing(cfg, start, es, |es0|, w.procs[p].key);
            CausedByStep(cfg, start, es, w, p);
          } else {
            CausedByEvent(cfg, start, es, w, e);
          }
        }
      }
    }
  }

  lemma CausedAt(cfg: Config, start: Time, es: seq<Event>, p: nat)
    requires Run(cfg, start, es).Some? && p in Run(cfg, start, es).value.procs
    ensures var w := Run(cfg, start, es).value; Caused(cfg, start, es, w.now, p, w.procs[p])
  {
    CausedAlways(cfg, start, es);
  }

  lemma CauseWithoutFaults(cfg: Config, start: Time, es: seq<Event>, now: Time, p: nat, pr: Proc)
    requires HasCause(cfg, start, es, now, p, pr, pr.result) && pr.result.Bad?
    requires !Faulted(es, p) && Deny(p) !in es
    ensures pr.result.error in {KeyNotFound, SessionInactive, NoAccessToken, ExpiredAccessToken}
  {
    assert IsOf(Fail(p), p);
  }

  /**
    Every error has its cause: without denials and without faults of the
    store, the lock and the provider there is none but in the session.
   */
  lemma ErrorsHaveCauses(cfg: Config, start: Time, es: seq<Event>, p: nat)
    requires Run(cfg, start, es).Some? && At(Run(cfg, start, es).value, p, Done)
    ensures var w := Run(cfg, start, es).value; var pr := w.procs[p];
      && pr.result != Pending && HasCause(cfg, start, es, w.now, p, pr, pr.result)
      && (pr.role.Login? ==> pr.result == Good(pr.data))
      && (!Faulted(es, p) && Deny(p) !in es && pr.result.Bad? ==>
            pr.result.error in {KeyNotFound, SessionInactive, NoAccessToken, ExpiredAccessToken})
  {
    CausedAt(cfg, start, es, p);
    var w := Run(cfg, start, es).value;
    if !Faulted(es, p) && Deny(p) !in es && w.procs[p].result.Bad? {
      CauseWithoutFaults(cfg, start, es, w.now, p, w.procs[p]);
    }
  }
}
