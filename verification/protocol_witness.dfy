/**
  Runs of the protocol: one that meets all hypotheses of its theorems, and two
  that leave them in one place each and pay for it.
 */
module ProtocolWitness {
  import opened SessionTime
  import opened SessionData
  import opened SessionKeys
  import opened Wrappers
  import Redis
  import opened Protocol
  import opened ProtocolExclusion
  import opened ProtocolHistory
  import opened ProtocolTokens
  import opened ProtocolChain

  const CFG: Config := Config(SessionConfig(true, true, 60, 1000), RedisStore, "openid", "app")
  const K: string := Key("openid", "app", "sid")
  const ENTRY: Entry := Entry(CFG, 0, Data("sid", "access", "id", "a", "jti", EMPTY_META), 0)
  const SLOT: Redis.Slot<Data> := Redis.Slot(Stamped(ENTRY, 1), Some(1001))
  const JOB: Job := Job(CFG, 1, K, SLOT, TokenResponse("new", "c", 0))

  // A run that meets every hypothesis, for every session.
  ghost predicate Proper(es: seq<Event>, w: World) {
    && Run(CFG, 1, es) == Some(w)
    && forall k :: Orderly(CFG, 1, es, k) && WritesUnspent(CFG, 1, es, k)
  }

  lemma TameIsProper(es: seq<Event>, w: World, es': seq<Event>, w': World)
    requires Proper(es, w) && es <= es' && Run(CFG, 1, es') == Some(w') && TameSince(CFG, 1, es', |es|)
    ensures Proper(es', w')
  {
    forall k ensures Orderly(CFG, 1, es', k) && WritesUnspent(CFG, 1, es', k) {
      assert es'[..|es|] == es && Orderly(CFG, 1, es, k);
      TameIsOrderly(CFG, 1, es', |es|, k);
    }
  }

  // A write while no refresh is under way, too.
  lemma WriteIsOrderly(es: seq<Event>, w: World, p: nat, acked: bool, k: string)
    requires Proper(es, w) && Enabled(CFG, w, Write(p, acked)) && forall q :: q in w.procs ==> !InSection(w.procs[q])
    ensures Orderly(CFG, 1, es + [Write(p, acked)], k)
    ensures w.procs[p].data.refreshToken in w.live ==> WritesUnspent(CFG, 1, es + [Write(p, acked)], k)
  {
    RunSnoc(CFG, 1, es, Write(p, acked));
    assert Orderly(CFG, 1, es, k);
    TokensStayPlaced(CFG, 1, es, k);
    OwnLedger(CFG, 1, es, k);
    assert PlacedProc(w.issued, IssuedFor(CFG, 1, es, k), k, w.procs[p]);
  }

  lemma FirstWrites(w: World, heard: bool)
    requires LoggingIn(ENTRY, Init(1), w, Writing)
    ensures Enabled(CFG, w, Write(0, heard))
    ensures var w' := Next(CFG, w, Write(0, heard));
      && w'.procs.Keys == {0} && CanStart(JOB, w') && w'.now == 1
      && At(w', 0, if heard then Done else Writing) && w'.procs[0].key == K && w'.procs[0].data == SLOT.value
  {
  }

  lemma FirstLoginWaits() returns (es: seq<Event>, w: World)
    ensures Proper(es, w) && LoggingIn(ENTRY, Init(1), w, Writing)
  {
    es, w := LogsIn(ENTRY, 1, [], Init(1));
    TameIsProper([], Init(1), es, w);
  }

  // The first login; unless it hears of its write, it will write again.
  lemma Login(heard: bool) returns (es: seq<Event>, w: World)
    ensures Proper(es, w) && w.procs.Keys == {0} && CanStart(JOB, w) && w.now == 1
    ensures At(w, 0, if heard then Done else Writing) && w.procs[0].key == K && w.procs[0].data == SLOT.value
  {
    var es1, w1 := FirstLoginWaits();
    FirstWrites(w1, heard);
    RunSnoc(CFG, 1, es1, Write(0, heard));
    es, w := es1 + [Write(0, heard)], Next(CFG, w1, Write(0, heard));
    forall k ensures Orderly(CFG, 1, es, k) && WritesUnspent(CFG, 1, es, k) {
      WriteIsOrderly(es1, w1, 0, heard, k);
    }
  }

  lemma CanStore(heard: bool) returns (es: seq<Event>, w: World, w0: World)
    ensures Proper(es, w) && CanStart(JOB, w0) && Doing(JOB, w0, w, Setting) && w0.procs.Keys == {0} && w.now == 1
    ensures At(w0, 0, if heard then Done else Writing) && w0.procs[0].key == K && w0.procs[0].data == SLOT.value
  {
    var es0;
    es0, w0 := Login(heard);
    es, w := GetsTo(JOB, 1, es0, w0, Setting);
    TameIsProper(es0, w0, es, w);
  }

  lemma HasStored(heard: bool) returns (es: seq<Event>, w: World, w0: World)
    ensures Proper(es, w) && Store(1, true) in es
    ensures CanStart(JOB, w0) && Doing(JOB, w0, w, Releasing) && w.procs[1].stored && w0.procs.Keys == {0}
    ensures At(w0, 0, if heard then Done else Writing) && w0.procs[0].key == K && w0.procs[0].data == SLOT.value
  {
    var es1, w1;
    es1, w1, w0 := CanStore(heard);
    Stores(JOB, w0, w1, Setting);
    StepIsTame(JOB, w0, w1, Setting);
    RunSnoc(CFG, 1, es1, Store(1, true));
    es, w := es1 + [Store(1, true)], Next(CFG, w1, Store(1, true));
    TameIsProper(es1, w1, es, w);
    assert Store(1, true) in es;
  }

  /** A run within all hypotheses, for all sessions, in which a refresh is stored. */
  lemma ProperRefreshExists() returns (es: seq<Event>, w: World)
    ensures Run(CFG, 1, es) == Some(w) && UsesCodesOnce(CFG, 1, es)
    ensures forall k :: Orderly(CFG, 1, es, k) && WritesUnspent(CFG, 1, es, k)
    ensures Store(1, true) in es && At(w, 1, Releasing) && w.procs[1].stored
  {
    var w0;
    es, w, w0 := HasStored(true);
    OneByOne(es);
  }

  // When each session's codes are used once, all are.
  lemma {:induction false} OneByOne(es: seq<Event>)
    requires Run(CFG, 1, es).Some? && forall k :: Orderly(CFG, 1, es, k)
    ensures UsesCodesOnce(CFG, 1, es)
  {
    if es != [] {
      var es0, e := es[..|es| - 1], es[|es| - 1];
      forall k ensures Orderly(CFG, 1, es0, k) {
        assert Orderly(CFG, 1, es, k);
      }
      OneByOne(es0);
      if e.Redeem? {
        assert Orderly(CFG, 1, es, SessionKey(CFG, e.session));
      }
    }
  }

  /**
    Create tries again when it does not hear of its write.  A refresh that comes
    in between has spent the token that is then written back: the session is
    left with a dead token, with nothing in flight.
   */
  lemma RepeatedWriteBringsSpentTokenBack() returns (es: seq<Event>, w: World)
    ensures Run(CFG, 1, es) == Some(w) && forall k :: Orderly(CFG, 1, es, k)
    ensures forall p :: p in w.procs ==> !InFlight(w.procs[p])
    ensures K in w.store && w.store[K].value.HasRefreshToken() && w.store[K].value.refreshToken !in w.live
    ensures !StoredLive(w, K)
  {
    var es1, w1, w0 := HasStored(false);
    RunSnoc(CFG, 1, es1, Write(0, true));
    es, w := es1 + [Write(0, true)], Next(CFG, w1, Write(0, true));
    forall k ensures Orderly(CFG, 1, es, k) {
      WriteIsOrderly(es1, w1, 0, true, k);
    }
    assert w.store[K].value == SLOT.value;
    assert Settled(w, K);
  }

  /**
    A logout between the two halves of an update: the session it has deleted is
    back, without a deadline.
   */
  lemma LogoutDuringUpdateLeavesOrphan() returns (es: seq<Event>, w: World)
    ensures Run(CFG, 1, es) == Some(w) && Delete(K) in es
    ensures K in w.store && w.store[K].deadline == None && Orphaned(CFG, 1, es, K)
  {
    var es1, w1, w0 := CanStore(true);
    RunSnoc(CFG, 1, es1, Delete(K));
    var es2, w2 := es1 + [Delete(K)], Next(CFG, w1, Delete(K));
    assert Delete(K) in es2;
    RunSnoc(CFG, 1, es2, Store(1, true));
    es, w := es2 + [Store(1, true)], Next(CFG, w2, Store(1, true));
  }
}
