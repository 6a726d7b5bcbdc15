/**
  Refresh tokens of the composed system.  Every token belongs to the session it
  was issued for, and is live at the rotating provider or spent.  The tokens that
  a session and its requests count on stay live, exactly when no login writes a
  spent one; whatever is lost or goes wrong with other sessions.
 */
module ProtocolTokens {
  import opened SessionTime
  import opened SessionData
  import opened Wrappers
  import Redis
  import opened Protocol
  import opened ProtocolExclusion
  import opened ProtocolData

  // ------------------------------------------------ issued and spent

  // The tokens that grants have used up.
  function Spent(cfg: Config, start: Time, es: seq<Event>): set<string> {
    if es == [] then {}
    else
      var before, e := Run(cfg, start, es[..|es| - 1]), es[|es| - 1];
      Spent(cfg, start, es[..|es| - 1]) +
      if before.Some? && (e.Grant? || e.GrantLost?) && e.p in before.value.procs
      then {before.value.procs[e.p].seen.refreshToken} else {}
  }

  /**
    Conservation: whatever is lost or crashes, a token ever issued is live or
    spent, and when codes are used once never both.
   */
  lemma {:induction false} TokenLedger(cfg: Config, start: Time, es: seq<Event>)
    requires Run(cfg, start, es).Some?
    ensures Run(cfg, start, es).value.live.Keys + Spent(cfg, start, es) == Run(cfg, start, es).value.issued
    ensures UsesCodesOnce(cfg, start, es) ==> Run(cfg, start, es).value.live.Keys !! Spent(cfg, start, es)
  {
    if es != [] {
      TokenLedger(cfg, start, es[..|es| - 1]);
    }
  }

  // Whatever token a session or a request holds was issued.
  predicate HeldIssued(issued: set<string>, pr: Proc) {
    && (Unwritten(pr) && pr.data.HasRefreshToken() ==> pr.data.refreshToken in issued)
    && (Armed(pr) && pr.seen.HasRefreshToken() ==> pr.seen.refreshToken in issued)
    && (Granted(pr) ==> pr.response.refreshToken in issued)
  }

  ghost predicate AllIssued(w: World) {
    && (forall k :: k in w.store && w.store[k].value.HasRefreshToken() ==> w.store[k].value.refreshToken in w.issued)
    && (forall p :: p in w.procs ==> HeldIssued(w.issued, w.procs[p]))
  }

  lemma HeldIssuedAdvance(cfg: Config, now: Time, store: Redis.Keyspace<Data>, issued: set<string>, pr: Proc)
    requires CanStep(pr.pc) && HeldIssued(issued, pr)
    requires pr.key in store && store[pr.key].value.HasRefreshToken() ==> store[pr.key].value.refreshToken in issued
    ensures HeldIssued(issued, Advance(cfg, now, store, pr))
  {
  }

  lemma HeldIssuedOwnStep(cfg: Config, w: World, e: Event)
    requires Enabled(cfg, w, e) && !e.Tick? && !e.Delete?
    requires e.p in w.procs ==> HeldIssued(w.issued, w.procs[e.p])
    requires forall k :: k in w.store && w.store[k].value.HasRefreshToken() ==> w.store[k].value.refreshToken in w.issued
    ensures HeldIssued(IssuedAfter(w, e), ProcAfter(cfg, w, e))
  {
    if e.Step? {
      HeldIssuedAdvance(cfg, w.now, w.store, w.issued, w.procs[e.p]);
    }
  }

  lemma {:induction false} TokensAreIssued(cfg: Config, start: Time, es: seq<Event>)
    requires Run(cfg, start, es).Some?
    ensures AllIssued(Run(cfg, start, es).value)
  {
    if es != [] {
      var es0, e := es[..|es| - 1], es[|es| - 1];
      var w, w' := Run(cfg, start, es0).value, Run(cfg, start, es).value;
      TokensAreIssued(cfg, start, es0);
      SaneAlways(cfg, start, es0);
      if !e.Tick? && !e.Delete? {
        HeldIssuedOwnStep(cfg, w, e);
      }
      if e.Store? {
        assert Sane(cfg, w.now, w.procs[e.p]);
      }
      assert forall p :: p in w'.procs ==> HeldIssued(w'.issued, w'.procs[p]);
    }
  }

  // The token that an event issues for k.
  function IssuedBy(cfg: Config, w: World, e: Event, k: string): set<string> {
    if e.Redeem? && e.session.HasRefreshToken() && SessionKey(cfg, e.session) == k then {e.session.refreshToken}
    else if (e.Grant? || e.GrantLost?) && ActsOn(w, e, k) then {e.response.refreshToken}
    else {}
  }

  function IssuedFor(cfg: Config, start: Time, es: seq<Event>, k: string): set<string> {
    if es == [] then {}
    else
      var before := Run(cfg, start, es[..|es| - 1]);
      IssuedFor(cfg, start, es[..|es| - 1], k) +
      if before.Some? then IssuedBy(cfg, before.value, es[|es| - 1], k) else {}
  }

  /**
    No code of a login of k is used twice: its token is a new one, and no other
    login brings a token that was issued for k.
   */
  ghost predicate SingleUseFor(cfg: Config, w: World, e: Event, k: string, own: set<string>) {
    e.Redeem? ==> e.session.refreshToken !in if SessionKey(cfg, e.session) == k then w.issued else own
  }

  ghost predicate UsesCodesOnceFor(cfg: Config, start: Time, es: seq<Event>, k: string) {
    es == [] ||
    var before, e := Run(cfg, start, es[..|es| - 1]), es[|es| - 1];
    && UsesCodesOnceFor(cfg, start, es[..|es| - 1], k)
    && (before.Some? ==> SingleUseFor(cfg, before.value, e, k, IssuedFor(cfg, start, es[..|es| - 1], k)))
  }

  lemma {:induction false} UsesCodesOnceForEach(cfg: Config, start: Time, es: seq<Event>, k: string)
    requires Run(cfg, start, es).Some? && UsesCodesOnce(cfg, start, es)
    ensures UsesCodesOnceFor(cfg, start, es, k)
    ensures IssuedFor(cfg, start, es, k) <= Run(cfg, start, es).value.issued
  {
    if es != [] {
      UsesCodesOnceForEach(cfg, start, es[..|es| - 1], k);
    }
  }

  // ------------------------------------------------------ whose they are

  // A token that is held under the given key was issued, and for that key if it is k.
  predicate Placed(issued: set<string>, own: set<string>, k: string, key: string, t: string) {
    |t| > 0 ==> t in issued && (t in own <==> key == k)
  }

  predicate PlacedProc(issued: set<string>, own: set<string>, k: string, pr: Proc) {
    && (Unwritten(pr) ==> Placed(issued, own, k, pr.key, pr.data.refreshToken))
    && (Armed(pr) ==> Placed(issued, own, k, pr.key, pr.seen.refreshToken))
    && (Granted(pr) ==> Placed(issued, own, k, pr.key, pr.response.refreshToken))
  }

  ghost predicate AllPlaced(w: World, own: set<string>, k: string) {
    && own <= w.issued
    && (forall key :: key in w.store ==> Placed(w.issued, own, k, key, w.store[key].value.refreshToken))
    && (forall p :: p in w.procs ==> PlacedProc(w.issued, own, k, w.procs[p]))
  }

  lemma PlacedAdvance(cfg: Config, now: Time, store: Redis.Keyspace<Data>, issued: set<string>, own: set<string>, k: string,
                      pr: Proc)
    requires CanStep(pr.pc) && PlacedProc(issued, own, k, pr)
    requires pr.key in store ==> Placed(issued, own, k, pr.key, store[pr.key].value.refreshToken)
    ensures PlacedProc(issued, own, k, Advance(cfg, now, store, pr))
  {
  }

  lemma PlacedOwnStep(cfg: Config, w: World, e: Event, k: string, own: set<string>)
    requires Enabled(cfg, w, e) && SingleUseFor(cfg, w, e, k, own) && !e.Tick? && !e.Delete? && own <= w.issued
    requires e.p in w.procs ==>
               && PlacedProc(w.issued, own, k, w.procs[e.p])
               && (w.procs[e.p].key in w.store ==>
                     Placed(w.issued, own, k, w.procs[e.p].key, w.store[w.procs[e.p].key].value.refreshToken))
    ensures PlacedProc(IssuedAfter(w, e), own + IssuedBy(cfg, w, e, k), k, ProcAfter(cfg, w, e))
  {
    if e.Step? {
      PlacedAdvance(cfg, w.now, w.store, w.issued, own, k, w.procs[e.p]);
    }
  }

  // What an event issues is new to everybody else.
  lemma PlacedElsewhere(cfg: Config, w: World, e: Event, k: string, own: set<string>, key: string, t: string)
    requires Enabled(cfg, w, e) && SingleUseFor(cfg, w, e, k, own) && own <= w.issued && Placed(w.issued, own, k, key, t)
    ensures Placed(IssuedAfter(w, e), own + IssuedBy(cfg, w, e, k), k, key, t)
  {
  }

  lemma AllPlacedStep(cfg: Config, w: World, e: Event, k: string, own: set<string>)
    requires Enabled(cfg, w, e) && AllSane(cfg, w) && SingleUseFor(cfg, w, e, k, own) && AllPlaced(w, own, k)
    ensures AllPlaced(Next(cfg, w, e), own + IssuedBy(cfg, w, e, k), k)
  {
    var w', own' := Next(cfg, w, e), own + IssuedBy(cfg, w, e, k);
    forall key, t | Placed(w.issued, own, k, key, t) ensures Placed(w'.issued, own', k, key, t) {
      PlacedElsewhere(cfg, w, e, k, own, key, t);
    }
    forall p | p in w'.procs ensures PlacedProc(w'.issued, own', k, w'.procs[p]) {
      if !e.Tick? && !e.Delete? && p == e.p {
        PlacedOwnStep(cfg, w, e, k, own);
      } else {
        assert PlacedProc(w.issued, own, k, w.procs[p]);
      }
    }
    if e.Store? {
      assert Sane(cfg, w.now, w.procs[e.p]) && PlacedProc(w.issued, own, k, w.procs[e.p]);
    }
    if e.Write? {
      assert PlacedProc(w.issued, own, k, w.procs[e.p]);
    }
  }

  /** No token is held, or can be spent, under any key but the one it was issued for. */
  lemma {:induction false} TokensStayPlaced(cfg: Config, start: Time, es: seq<Event>, k: string)
    requires Run(cfg, start, es).Some? && UsesCodesOnceFor(cfg, start, es, k)
    ensures AllPlaced(Run(cfg, start, es).value, IssuedFor(cfg, start, es, k), k)
  {
    if es != [] {
      var es0 := es[..|es| - 1];
      TokensStayPlaced(cfg, start, es0, k);
      SaneAlways(cfg, start, es0);
      AllPlacedStep(cfg, Run(cfg, start, es0).value, es[|es| - 1], k, IssuedFor(cfg, start, es0, k));
    }
  }

  // Of the tokens issued for k, none is both live and spent.
  lemma {:induction false} OwnLedger(cfg: Config, start: Time, es: seq<Event>, k: string)
    requires Run(cfg, start, es).Some? && UsesCodesOnceFor(cfg, start, es, k)
    ensures var own := IssuedFor(cfg, start, es, k);
      own <= Run(cfg, start, es).value.issued && own * Run(cfg, start, es).value.live.Keys !! Spent(cfg, start, es)
  {
    if es != [] {
      OwnLedger(cfg, start, es[..|es| - 1], k);
      TokenLedger(cfg, start, es[..|es| - 1]);
    }
  }

  // -------------------------------------------------------- who holds them

  // Who counts on a token of k: the stored session, or a request whose token is not stored yet.
  datatype Holder = Session | Request(p: nat)

  ghost predicate Settled(w: World, k: string) {
    forall p :: p in w.procs && w.procs[p].key == k ==> !InFlight(w.procs[p])
  }

  function RequestToken(pr: Proc): Option<string> {
    if Unwritten(pr) then Some(pr.data.refreshToken)
    else if InFlight(pr) then Some(pr.response.refreshToken)
    else None
  }

  ghost function TokenOf(w: World, k: string, h: Holder): Option<string> {
    match h
    case Session => if k in w.store && Settled(w, k) then Some(w.store[k].value.refreshToken) else None
    case Request(p) => if p in w.procs && w.procs[p].key == k then RequestToken(w.procs[p]) else None
  }

  ghost predicate Holds(w: World, k: string, h: Holder, t: string) {
    TokenOf(w, k, h) == Some(t) && |t| > 0
  }

  // h is a login that has written its session and may write it again.
  ghost predicate Rewrites(w: World, wrote: set<nat>, h: Holder) {
    h.Request? && h.p in wrote && h.p in w.procs && Unwritten(w.procs[h.p])
  }

  // A login that may write again shares its token with the session it wrote, and with nobody else.
  ghost predicate MayShare(w: World, wrote: set<nat>, h: Holder, h': Holder) {
    h == h' || (h.Session? && Rewrites(w, wrote, h')) || (h'.Session? && Rewrites(w, wrote, h))
  }

  ghost predicate FlightsLeased(w: World, k: string) {
    forall p :: p in w.procs && w.procs[p].key == k && InFlight(w.procs[p]) ==> w.now < w.procs[p].lease
  }

  ghost predicate TokenInv(w: World, wrote: set<nat>, k: string) {
    && (forall h, t :: Holds(w, k, h, t) ==> t in w.live || Rewrites(w, wrote, h))
    && (forall h, h', t :: Holds(w, k, h, t) && Holds(w, k, h', t) ==> MayShare(w, wrote, h, h'))
    && FlightsLeased(w, k)
  }

  // The processes that have tried to write, after e as well.
  function WroteAfter(e: Event, wrote: set<nat>): set<nat> {
    if e.Write? then wrote + {e.p} else wrote
  }

  // Nobody comes to hold a token of k, and none that is held dies: the invariant survives.
  lemma TokenInvShrinks(w: World, w': World, wrote: set<nat>, wrote': set<nat>, k: string)
    requires TokenInv(w, wrote, k) && FlightsLeased(w', k)
    requires forall h, t :: Holds(w', k, h, t) ==>
               && Holds(w, k, h, t) && (t in w.live ==> t in w'.live)
               && (Rewrites(w, wrote, h) ==> Rewrites(w', wrote', h))
    ensures TokenInv(w', wrote', k)
  {
    forall h, h', t | Holds(w', k, h, t) && Holds(w', k, h', t) ensures MayShare(w', wrote', h, h') {
      assert MayShare(w, wrote, h, h');
    }
  }

  // A token held under k belongs to k.
  lemma HeldIsOwn(w: World, k: string, own: set<string>, h: Holder, t: string)
    requires AllPlaced(w, own, k) && Holds(w, k, h, t)
    ensures t in own && t in w.issued
  {
    match h
    case Session => assert Placed(w.issued, own, k, k, t);
    case Request(p) => assert PlacedProc(w.issued, own, k, w.procs[p]);
  }

  // ------------------------------------------------------------- steps

  // e is no step of a process of k, and brings none.
  predicate Elsewhere(cfg: Config, w: World, e: Event, k: string) {
    !ActsOn(w, e, k) && !(e.Redeem? && SessionKey(cfg, e.session) == k)
  }

  lemma SettledElsewhere(cfg: Config, w: World, e: Event, k: string)
    requires Enabled(cfg, w, e) && Elsewhere(cfg, w, e, k) && Settled(Next(cfg, w, e), k)
    ensures Settled(w, k)
  {
    var w' := Next(cfg, w, e);
    forall q | q in w.procs && w.procs[q].key == k ensures !InFlight(w.procs[q]) {
      assert q in w'.procs && w'.procs[q] == w.procs[q];
    }
  }

  lemma RequestElsewhere(cfg: Config, w: World, e: Event, k: string, p: nat)
    requires Enabled(cfg, w, e) && Elsewhere(cfg, w, e, k)
    requires p in Next(cfg, w, e).procs && Next(cfg, w, e).procs[p].key == k
    ensures if p in w.procs then Next(cfg, w, e).procs[p] == w.procs[p] else RequestToken(Next(cfg, w, e).procs[p]).None?
  {
    if !e.Tick? && !e.Delete? && p == e.p && e.Step? {
      AdvanceFrame(cfg, w.now, w.store, w.procs[p]);
    }
  }

  lemma TokenInvElsewhere(cfg: Config, w: World, e: Event, wrote: set<nat>, k: string, own: set<string>)
    requires Enabled(cfg, w, e) && NoLoss(w, e, k) && AllPlaced(w, own, k) && TokenInv(w, wrote, k)
    requires Elsewhere(cfg, w, e, k)
    ensures TokenInv(Next(cfg, w, e), WroteAfter(e, wrote), k)
  {
    var w' := Next(cfg, w, e);
    forall p | p in w'.procs && w'.procs[p].key == k && InFlight(w'.procs[p]) ensures w'.now < w'.procs[p].lease {
      RequestElsewhere(cfg, w, e, k, p);
    }
    forall h, t | Holds(w', k, h, t)
      ensures && Holds(w, k, h, t) && (t in w.live ==> t in w'.live)
              && (Rewrites(w, wrote, h) ==> Rewrites(w', WroteAfter(e, wrote), h))
    {
      if h.Request? {
        RequestElsewhere(cfg, w, e, k, h.p);
      } else {
        SettledElsewhere(cfg, w, e, k);
      }
      HeldIsOwn(w, k, own, h, t);
      SpentElsewhere(cfg, w, e, k, own, t);
    }
    TokenInvShrinks(w, w', wrote, WroteAfter(e, wrote), k);
  }

  // A grant on another key does not use up a token of k.
  lemma SpentElsewhere(cfg: Config, w: World, e: Event, k: string, own: set<string>, t: string)
    requires Enabled(cfg, w, e) && AllPlaced(w, own, k) && Elsewhere(cfg, w, e, k) && t in own && |t| > 0
    ensures t in w.live ==> t in Next(cfg, w, e).live
  {
    if e.Grant? || e.GrantLost? {
      assert PlacedProc(w.issued, own, k, w.procs[e.p]);
    }
  }

  lemma RequestTokenAdvance(cfg: Config, now: Time, store: Redis.Keyspace<Data>, pr: Proc)
    requires CanStep(pr.pc) && Sane(cfg, now, pr)
    ensures var pr' := Advance(cfg, now, store, pr);
      && pr'.key == pr.key && pr'.lease == pr.lease
      && (InFlight(pr') <==> InFlight(pr) && !(pr.pc.Updating? && !Redis.Has(store, now, pr.key)))
      && (RequestToken(pr').Some? ==>
            RequestToken(pr') == RequestToken(pr) && (Unwritten(pr') <==> Unwritten(pr)))
  {
  }

  // Steps that change one process only, and not what it holds.
  predicate IsLocal(e: Event) {
    e.Arrive? || e.Step? || e.Decide? || e.Fail? || e.Deny? || e.Acquire? || e.AcquireLost? || e.Release?
  }

  lemma RequestTokenOwnStep(cfg: Config, w: World, e: Event, k: string)
    requires Enabled(cfg, w, e) && IsLocal(e) && ActsOn(w, e, k) && NoLoss(w, e, k)
    requires Sane(cfg, w.now, w.procs[e.p]) && (Armed(w.procs[e.p]) ==> Agrees(w, e.p))
    ensures var pr' := ProcAfter(cfg, w, e);
      && pr'.key == k
      && (InFlight(w.procs[e.p]) <==> InFlight(pr')) && (InFlight(pr') ==> pr'.lease == w.procs[e.p].lease)
      && (RequestToken(pr').Some? ==>
            RequestToken(pr') == RequestToken(w.procs[e.p]) && (Unwritten(pr') <==> Unwritten(w.procs[e.p])))
  {
    if e.Step? {
      RequestTokenAdvance(cfg, w.now, w.store, w.procs[e.p]);
    }
  }

  // When no process of k leaves its flight, k is settled after the step only if it was before.
  lemma SettledBack(w: World, w': World, p: nat, k: string)
    requires p in w'.procs && w'.procs == w.procs[p := w'.procs[p]]
    requires p in w.procs && w.procs[p].key == k ==> w'.procs[p].key == k && (InFlight(w.procs[p]) ==> InFlight(w'.procs[p]))
    ensures Settled(w', k) ==> Settled(w, k)
  {
    forall q | Settled(w', k) && q in w.procs && w.procs[q].key == k ensures !InFlight(w.procs[q]) {
      assert q in w'.procs;
    }
  }

  lemma TokenInvLocal(cfg: Config, w: World, e: Event, wrote: set<nat>, k: string)
    requires Enabled(cfg, w, e) && AllSane(cfg, w) && Agreement(w, k) && TokenInv(w, wrote, k)
    requires InLease(w, e, k) && NoLoss(w, e, k) && IsLocal(e) && ActsOn(w, e, k)
    ensures TokenInv(Next(cfg, w, e), wrote, k)
  {
    var w' := Next(cfg, w, e);
    assert Armed(w.procs[e.p]) ==> Agrees(w, e.p);
    RequestTokenOwnStep(cfg, w, e, k);
    LocalKeepsHeld(w, w', e.p, wrote, k);
    TokenInvShrinks(w, w', wrote, wrote, k);
  }

  lemma LocalKeepsHeld(w: World, w': World, p: nat, wrote: set<nat>, k: string)
    requires p in w.procs && w.procs[p].key == k && p in w'.procs && w'.procs == w.procs[p := w'.procs[p]]
    requires w'.now == w.now && w'.store == w.store && w'.live == w.live
    requires var pr, pr' := w.procs[p], w'.procs[p];
      && pr'.key == k && (InFlight(pr) <==> InFlight(pr')) && (InFlight(pr') ==> pr'.lease == pr.lease)
      && (RequestToken(pr').Some? ==> RequestToken(pr') == RequestToken(pr) && (Unwritten(pr') <==> Unwritten(pr)))
    requires FlightsLeased(w, k)
    ensures FlightsLeased(w', k)
    ensures forall h, t :: Holds(w', k, h, t) ==>
              Holds(w, k, h, t) && (Rewrites(w, wrote, h) ==> Rewrites(w', wrote, h))
  {
    SettledBack(w, w', p, k);
  }

  lemma TokenInvWrite(cfg: Config, w: World, e: Event, wrote: set<nat>, k: string)
    requires Enabled(cfg, w, e) && TokenInv(w, wrote, k) && NoIntrusion(w, e, k)
    requires e.Write? && ActsOn(w, e, k)
    requires w.procs[e.p].data.HasRefreshToken() ==> w.procs[e.p].data.refreshToken in w.live
    ensures TokenInv(Next(cfg, w, e), wrote + {e.p}, k)
  {
    var w', wrote' := Next(cfg, w, e), wrote + {e.p};
    SettledBack(w, w', e.p, k);
    QuietIsSettled(w, k);
    forall h, t | Holds(w', k, h, t) ensures Holds(w, k, if h == Session then Request(e.p) else h, t) {
    }
    forall h, h', t | Holds(w', k, h, t) && Holds(w', k, h', t) ensures MayShare(w', wrote', h, h') {
      var was, was' := if h == Session then Request(e.p) else h, if h' == Session then Request(e.p) else h';
      assert Holds(w, k, was, t) && Holds(w, k, was', t);
      assert MayShare(w, wrote, was, was');
    }
  }

  lemma QuietIsSettled(w: World, k: string)
    requires Quiet(w, k) && FlightsLeased(w, k)
    ensures Settled(w, k)
  {
  }

  lemma TokenInvRedeem(cfg: Config, w: World, e: Event, wrote: set<nat>, k: string, own: set<string>)
    requires Enabled(cfg, w, e) && AllPlaced(w, own, k) && TokenInv(w, wrote, k)
    requires e.Redeem? && SessionKey(cfg, e.session) == k && SingleUseFor(cfg, w, e, k, own)
    ensures TokenInv(Next(cfg, w, e), wrote, k)
  {
    var w' := Next(cfg, w, e);
    SettledBack(w, w', e.p, k);
    forall h, t | h != Request(e.p) && Holds(w', k, h, t) ensures Holds(w, k, h, t) && t in w.issued {
      assert Holds(w, k, h, t);
      HeldIsOwn(w, k, own, h, t);
    }
    forall h, h', t | Holds(w', k, h, t) && Holds(w', k, h', t) ensures MayShare(w', wrote, h, h') {
      if h != Request(e.p) && h' != Request(e.p) {
        assert MayShare(w, wrote, h, h');
      }
    }
  }

  // A process about to ask for new tokens has its session to itself.
  lemma SettledAtGrant(cfg: Config, w: World, p: nat, k: string)
    requires cfg.backend.RedisStore? && LockInv(cfg, w) && FlightsLeased(w, k)
    requires At(w, p, Granting) && w.procs[p].key == k && Leased(w, p)
    ensures Settled(w, k)
  {
    forall q | q in w.procs && w.procs[q].key == k ensures !InFlight(w.procs[q]) {
      if InFlight(w.procs[q]) {
        MutualExclusion(cfg, w, q, p);
      }
    }
  }

  /** A grant moves the claim from the stored session to the request with the new token. */
  lemma TokenInvGrant(cfg: Config, w: World, e: Event, wrote: set<nat>, k: string, own: set<string>)
    requires cfg.backend.RedisStore?
    requires Enabled(cfg, w, e) && LockInv(cfg, w) && AllSane(cfg, w) && Agreement(w, k) && AllPlaced(w, own, k)
    requires TokenInv(w, wrote, k) && InLease(w, e, k) && e.Grant? && ActsOn(w, e, k)
    ensures TokenInv(Next(cfg, w, e), wrote, k)
  {
    var w', spent := Next(cfg, w, e), w.procs[e.p].seen.refreshToken;
    assert Agrees(w, e.p);
    SettledAtGrant(cfg, w, e.p, k);
    assert Holds(w, k, Session, spent);
    assert Sane(cfg, w.now, w.procs[e.p]) && InFlight(w'.procs[e.p]);
    forall h, t | Holds(w', k, h, t) && h != Request(e.p)
      ensures Holds(w, k, h, t) && t in w.issued && (t in w'.live || Rewrites(w', wrote, h))
    {
      assert Holds(w, k, h, t);
      HeldIsOwn(w, k, own, h, t);
      if t == spent {
        assert MayShare(w, wrote, h, Session);
      }
    }
    forall h, h', t | Holds(w', k, h, t) && Holds(w', k, h', t) ensures MayShare(w', wrote, h, h') {
      if h != Request(e.p) && h' != Request(e.p) {
        assert MayShare(w, wrote, h, h');
      }
    }
  }

  /** An update hands the claim back to the stored session. */
  lemma TokenInvStore(cfg: Config, w: World, e: Event, wrote: set<nat>, k: string)
    requires Enabled(cfg, w, e) && AllSane(cfg, w) && TokenInv(w, wrote, k)
    requires e.Store? && ActsOn(w, e, k) && !w.procs[e.p].stored
    ensures TokenInv(Next(cfg, w, e), wrote, k)
  {
    var w' := Next(cfg, w, e);
    assert Sane(cfg, w.now, w.procs[e.p]);
    forall h, t | Holds(w', k, h, t) ensures Holds(w, k, if h == Session then Request(e.p) else h, t) {
    }
    forall h, h', t | Holds(w', k, h, t) && Holds(w', k, h', t) ensures MayShare(w', wrote, h, h') {
      var was, was' := if h == Session then Request(e.p) else h, if h' == Session then Request(e.p) else h';
      assert MayShare(w, wrote, was, was');
    }
  }

  lemma TokenInvRepeat(cfg: Config, w: World, e: Event, wrote: set<nat>, k: string)
    requires Enabled(cfg, w, e) && AllSane(cfg, w) && Agreement(w, k) && TokenInv(w, wrote, k) && InLease(w, e, k)
    requires e.Store? && ActsOn(w, e, k) && w.procs[e.p].stored
    ensures TokenInv(Next(cfg, w, e), wrote, k)
  {
    var w' := Next(cfg, w, e);
    assert Agrees(w, e.p);
    SettledBack(w, w', e.p, k);
    TokenInvShrinks(w, w', wrote, wrote, k);
  }

  lemma TokenInvStep(cfg: Config, w: World, e: Event, wrote: set<nat>, k: string, own: set<string>)
    requires cfg.backend.RedisStore?
    requires Enabled(cfg, w, e) && LockInv(cfg, w) && AllSane(cfg, w) && Agreement(w, k) && AllPlaced(w, own, k)
    requires TokenInv(w, wrote, k)
    requires InLease(w, e, k) && NoIntrusion(w, e, k) && SingleUseFor(cfg, w, e, k, own) && NoLoss(w, e, k)
    requires e.Write? && ActsOn(w, e, k) && w.procs[e.p].data.HasRefreshToken() ==>
               w.procs[e.p].data.refreshToken in w.live
    ensures TokenInv(Next(cfg, w, e), WroteAfter(e, wrote), k)
  {
    if Elsewhere(cfg, w, e, k) {
      TokenInvElsewhere(cfg, w, e, wrote, k, own);
    } else {
      match e
      case Redeem(_, _, _, _, _) => TokenInvRedeem(cfg, w, e, wrote, k, own);
      case Write(_, _) => TokenInvWrite(cfg, w, e, wrote, k);
      case Grant(_, _) => TokenInvGrant(cfg, w, e, wrote, k, own);
      case Store(p, _) =>
        if w.procs[p].stored {
          TokenInvRepeat(cfg, w, e, wrote, k);
        } else {
          TokenInvStore(cfg, w, e, wrote, k);
        }
      case _ => TokenInvLocal(cfg, w, e, wrote, k);
    }
  }

  // -------------------------------------------------------------- runs

  // The processes that have tried to write.
  function Wrote(es: seq<Event>): set<nat> {
    if es == [] then {} else WroteAfter(es[|es| - 1], Wrote(es[..|es| - 1]))
  }

  // e does not write a session of k whose refresh token has been spent.
  ghost predicate WriteIsUnspent(w: World, e: Event, k: string, spent: set<string>) {
    e.Write? && ActsOn(w, e, k) && w.procs[e.p].data.HasRefreshToken() ==> w.procs[e.p].data.refreshToken !in spent
  }

  /** No login writes a session of k whose refresh token has been spent. */
  ghost predicate WritesUnspent(cfg: Config, start: Time, es: seq<Event>, k: string) {
    es == [] ||
    var before, e := Run(cfg, start, es[..|es| - 1]), es[|es| - 1];
    && WritesUnspent(cfg, start, es[..|es| - 1], k)
    && (before.Some? ==> WriteIsUnspent(before.value, e, k, Spent(cfg, start, es[..|es| - 1])))
  }

  // The hypotheses on k, other than on what logins write.
  ghost predicate Orderly(cfg: Config, start: Time, es: seq<Event>, k: string) {
    Disciplined(cfg, start, es, k) && UsesCodesOnceFor(cfg, start, es, k) && Lossless(cfg, start, es, k)
  }

  lemma UnspentIsLive(cfg: Config, start: Time, es: seq<Event>, k: string, p: nat)
    requires Run(cfg, start, es).Some? && UsesCodesOnceFor(cfg, start, es, k)
    requires var w := Run(cfg, start, es).value;
      && At(w, p, Writing) && w.procs[p].key == k && w.procs[p].data.HasRefreshToken()
      && w.procs[p].data.refreshToken !in Spent(cfg, start, es)
    ensures var w := Run(cfg, start, es).value; w.procs[p].data.refreshToken in w.live
  {
    TokensStayPlaced(cfg, start, es, k);
    TokenLedger(cfg, start, es);
    var w := Run(cfg, start, es).value;
    assert PlacedProc(w.issued, IssuedFor(cfg, start, es, k), k, w.procs[p]);
  }

  // e can happen after es, and meets every hypothesis.
  ghost predicate GoesOn(cfg: Config, start: Time, es: seq<Event>, e: Event, k: string) {
    var before := Run(cfg, start, es);
    && before.Some?
    && var w := before.value;
    && Enabled(cfg, w, e) && InLease(w, e, k) && NoIntrusion(w, e, k) && NoLoss(w, e, k)
    && SingleUseFor(cfg, w, e, k, IssuedFor(cfg, start, es, k))
    && WriteIsUnspent(w, e, k, Spent(cfg, start, es))
  }

  lemma OrderlyGoesOn(cfg: Config, start: Time, es: seq<Event>, k: string)
    requires es != [] && Run(cfg, start, es).Some? && Orderly(cfg, start, es, k) && WritesUnspent(cfg, start, es, k)
    ensures Orderly(cfg, start, es[..|es| - 1], k) && WritesUnspent(cfg, start, es[..|es| - 1], k)
    ensures GoesOn(cfg, start, es[..|es| - 1], es[|es| - 1], k)
  {
  }

  lemma TokenInvNext(cfg: Config, start: Time, es: seq<Event>, e: Event, k: string)
    requires cfg.backend.RedisStore?
    requires GoesOn(cfg, start, es, e, k) && Disciplined(cfg, start, es, k) && UsesCodesOnceFor(cfg, start, es, k)
    requires TokenInv(Run(cfg, start, es).value, Wrote(es), k)
    ensures TokenInv(Next(cfg, Run(cfg, start, es).value, e), WroteAfter(e, Wrote(es)), k)
  {
    LockInvAlways(cfg, start, es);
    SaneAlways(cfg, start, es);
    AgreementAlways(cfg, start, es, k);
    TokensStayPlaced(cfg, start, es, k);
    var w := Run(cfg, start, es).value;
    if e.Write? && ActsOn(w, e, k) && w.procs[e.p].data.HasRefreshToken() {
      UnspentIsLive(cfg, start, es, k, e.p);
    }
    TokenInvStep(cfg, w, e, Wrote(es), k, IssuedFor(cfg, start, es, k));
  }

  lemma TokenInvInit(start: Time, k: string)
    ensures TokenInv(Init(start), {}, k)
  {
  }

  lemma {:induction false} TokenInvAlways(cfg: Config, start: Time, es: seq<Event>, k: string)
    requires cfg.backend.RedisStore?
    requires Run(cfg, start, es).Some? && Orderly(cfg, start, es, k) && WritesUnspent(cfg, start, es, k)
    ensures TokenInv(Run(cfg, start, es).value, Wrote(es), k)
  {
    if es == [] {
      TokenInvInit(start, k);
    } else {
      OrderlyGoesOn(cfg, start, es, k);
      TokenInvAlways(cfg, start, es[..|es| - 1], k);
      TokenInvNext(cfg, start, es[..|es| - 1], es[|es| - 1], k);
    }
  }

  // ---------------------------------------------------------- theorems

  ghost predicate StoredLive(w: World, k: string) {
    k in w.store && Settled(w, k) && w.store[k].value.HasRefreshToken() ==> w.store[k].value.refreshToken in w.live
  }

  // StoredLive at every moment of the run.
  ghost predicate AlwaysLive(cfg: Config, start: Time, es: seq<Event>, k: string) {
    && (Run(cfg, start, es).Some? ==> StoredLive(Run(cfg, start, es).value, k))
    && (es != [] ==> AlwaysLive(cfg, start, es[..|es| - 1], k))
  }

  /** Between grants and updates, the refresh token of a stored session is live at the provider. */
  lemma StoredTokensAreLive(cfg: Config, start: Time, es: seq<Event>, k: string)
    requires cfg.backend.RedisStore?
    requires Run(cfg, start, es).Some? && Orderly(cfg, start, es, k) && WritesUnspent(cfg, start, es, k)
    ensures StoredLive(Run(cfg, start, es).value, k)
  {
    TokenInvAlways(cfg, start, es, k);
    var w := Run(cfg, start, es).value;
    if k in w.store && Settled(w, k) && w.store[k].value.HasRefreshToken() {
      assert Holds(w, k, Session, w.store[k].value.refreshToken);
    }
  }

  /** It is so throughout a run exactly when no login writes a spent token. */
  lemma {:induction false} TokensStayLiveIff(cfg: Config, start: Time, es: seq<Event>, k: string)
    requires cfg.backend.RedisStore?
    requires Run(cfg, start, es).Some? && Orderly(cfg, start, es, k)
    ensures AlwaysLive(cfg, start, es, k) <==> WritesUnspent(cfg, start, es, k)
  {
    if es != [] {
      var es0, e := es[..|es| - 1], es[|es| - 1];
      TokensStayLiveIff(cfg, start, es0, k);
      if WritesUnspent(cfg, start, es0, k) && !WritesUnspent(cfg, start, es, k) {
        SpentWriteShows(cfg, start, es0, e, k);
      }
    }
    if WritesUnspent(cfg, start, es, k) {
      StoredTokensAreLive(cfg, start, es, k);
    }
  }

  // The write of a spent token leaves a session with a dead one.
  lemma SpentWriteShows(cfg: Config, start: Time, es: seq<Event>, e: Event, k: string)
    requires cfg.backend.RedisStore?
    requires Run(cfg, start, es).Some? && Orderly(cfg, start, es, k) && WritesUnspent(cfg, start, es, k)
    requires var w := Run(cfg, start, es).value;
      Enabled(cfg, w, e) && NoIntrusion(w, e, k) && !WriteIsUnspent(w, e, k, Spent(cfg, start, es))
    ensures !StoredLive(Next(cfg, Run(cfg, start, es).value, e), k)
  {
    var w := Run(cfg, start, es).value;
    TokenInvAlways(cfg, start, es, k);
    TokensStayPlaced(cfg, start, es, k);
    OwnLedger(cfg, start, es, k);
    QuietIsSettled(w, k);
    assert PlacedProc(w.issued, IssuedFor(cfg, start, es, k), k, w.procs[e.p]);
    assert Settled(Next(cfg, w, e), k);
  }

  /** Only a repeated write can write a spent token: the token of a login that has not written yet is live. */
  lemma SpentWritesAreRepeats(cfg: Config, start: Time, es: seq<Event>, k: string, p: nat, acked: bool)
    requires cfg.backend.RedisStore?
    requires Run(cfg, start, es).Some? && Orderly(cfg, start, es, k) && WritesUnspent(cfg, start, es, k)
    requires var w := Run(cfg, start, es).value;
      Enabled(cfg, w, Write(p, acked)) && !WriteIsUnspent(w, Write(p, acked), k, Spent(cfg, start, es))
    ensures Write(p, false) in es
  {
    TokenInvAlways(cfg, start, es, k);
    TokensStayPlaced(cfg, start, es, k);
    OwnLedger(cfg, start, es, k);
    var w := Run(cfg, start, es).value;
    assert Holds(w, k, Request(p), w.procs[p].data.refreshToken);
    HeldIsOwn(w, k, IssuedFor(cfg, start, es, k), Request(p), w.procs[p].data.refreshToken);
    assert p in Wrote(es);
    WritesStayPending(cfg, start, es, p);
  }

  // A process that has written and is to write again has had no answer.
  lemma {:induction false} WritesStayPending(cfg: Config, start: Time, es: seq<Event>, p: nat)
    requires Run(cfg, start, es).Some? && p in Wrote(es) && At(Run(cfg, start, es).value, p, Writing)
    ensures Write(p, false) in es
  {
    var es0, e := es[..|es| - 1], es[|es| - 1];
    if e != Write(p, false) {
      WrittenIsKnown(cfg, start, es0, p);
      WritesStayPending(cfg, start, es0, p);
    }
  }

  lemma {:induction false} WrittenIsKnown(cfg: Config, start: Time, es: seq<Event>, p: nat)
    requires Run(cfg, start, es).Some? && p in Wrote(es)
    ensures p in Run(cfg, start, es).value.procs
    ensures Unwritten(Run(cfg, start, es).value.procs[p]) ==> At(Run(cfg, start, es).value, p, Writing)
  {
    var es0, e := es[..|es| - 1], es[|es| - 1];
    if !(e.Write? && e.p == p) {
      WrittenIsKnown(cfg, start, es0, p);
    }
  }

  /** No refresh is refused because another process has spent its token. */
  lemma NoRefreshIsRefused(cfg: Config, start: Time, es: seq<Event>, k: string, p: nat, r: TokenResponse)
    requires cfg.backend.RedisStore?
    requires Run(cfg, start, es).Some? && Orderly(cfg, start, es, k) && WritesUnspent(cfg, start, es, k)
    requires var w := Run(cfg, start, es).value;
      At(w, p, Granting) && w.procs[p].key == k && Leased(w, p) && FreshResponse(w, r)
    ensures Enabled(cfg, Run(cfg, start, es).value, Grant(p, r))
  {
    TokenInvAlways(cfg, start, es, k);
    LockInvAlways(cfg, start, es);
    SaneAlways(cfg, start, es);
    AgreementAlways(cfg, start, es, k);
    var w := Run(cfg, start, es).value;
    assert Agrees(w, p);
    SettledAtGrant(cfg, w, p, k);
    assert Holds(w, k, Session, w.procs[p].seen.refreshToken);
  }

  /** When codes are used once altogether, each session for which all goes well has a live token. */
  lemma EachOrderlySessionIsLive(cfg: Config, start: Time, es: seq<Event>)
    requires cfg.backend.RedisStore? && Run(cfg, start, es).Some? && UsesCodesOnce(cfg, start, es)
    ensures forall k :: Disciplined(cfg, start, es, k) && Lossless(cfg, start, es, k) && WritesUnspent(cfg, start, es, k) ==>
              StoredLive(Run(cfg, start, es).value, k)
  {
    forall k | Disciplined(cfg, start, es, k) && Lossless(cfg, start, es, k) && WritesUnspent(cfg, start, es, k)
      ensures StoredLive(Run(cfg, start, es).value, k)
    {
      UsesCodesOnceForEach(cfg, start, es, k);
      StoredTokensAreLive(cfg, start, es, k);
    }
  }
}
