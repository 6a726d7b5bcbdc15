/**
  Every interleaved run ends with the store and provider state of a sequential
  run in which each refresh is a single atomic step, taken in lock order.
 */
module ProtocolRefinement {
  import opened SessionTime
  import opened SessionData
  import Redis
  import opened Provider
  import opened Protocol
  import opened ProtocolExclusion
  import opened ProtocolData

  // ---------------------------------------------- the sequential system

  datatype Shared = Shared(store: Redis.Keyspace<Data>, live: map<string, RefreshTokenData>)

  datatype Op =
    | Issue(token: string, grant: RefreshTokenData)
    | PutSession(key: string, data: Data, written: Time)
    | DropSession(key: string)
      // kept: the new tokens reach the store
    | Refresh(key: string, ticket: nat, at: Readings, stored: Time, response: TokenResponse, kept: bool)

  // Whether a refresh with the given clock readings gets as far as new tokens.
  predicate Effective(cfg: Config, s: Shared, o: Op)
    requires o.Refresh?
  {
    var d := Redis.Get(s.store, o.at.reread, o.key);
    && d.Some?
    && CanRefresh(cfg.session, d.value, o.at.can)
    && !IsTimedOut(cfg.session, d.value, o.at.idle)
    && d.value.refreshToken in s.live
  }

  /** `Refresh` on its own: nothing else happens between its read and its write. */
  function SequentialRefresh(cfg: Config, s: Shared, o: Op): Shared
    requires o.Refresh?
  {
    if !Effective(cfg, s, o) then s
    else
      var d := s.store[o.key].value;
      var d' := Touched(cfg.session, Renewed(d, o.response, o.at.renew), o.at.extend);
      Shared(if o.kept then Redis.SetKeepTtl(s.store, o.stored, o.key, d') else s.store,
             Rotate(s.live, d.refreshToken, o.response.refreshToken))
  }

  function Atomic(cfg: Config, s: Shared, o: Op): Shared {
    match o
    case Issue(token, grant) => s.(live := s.live[token := grant])
    case PutSession(k, d, written) => s.(store := Put(cfg, s.store, written, k, d))
    case DropSession(k) => s.(store := Redis.Del(s.store, k))
    case Refresh(_, _, _, _, _, _) => SequentialRefresh(cfg, s, o)
  }

  function Replay(cfg: Config, ops: seq<Op>): Shared {
    if ops == [] then Shared(map[], map[])
    else Atomic(cfg, Replay(cfg, ops[..|ops| - 1]), ops[|ops| - 1])
  }

  // No refresh of the sequential run is turned away, and its readings are in clock order.
  ghost predicate AllEffective(cfg: Config, ops: seq<Op>) {
    ops == [] ||
    var o := ops[|ops| - 1];
    && AllEffective(cfg, ops[..|ops| - 1])
    && (o.Refresh? ==> Effective(cfg, Replay(cfg, ops[..|ops| - 1]), o) && InClockOrder(o))
  }

  predicate InClockOrder(o: Op)
    requires o.Refresh?
  {
    o.at.reread <= o.at.can <= o.at.idle && (o.kept ==> o.at.idle <= o.at.renew <= o.at.extend <= o.stored)
  }

  // Refreshes of a key come in the order in which their locks were obtained.
  ghost predicate InLockOrder(ops: seq<Op>) {
    forall i, j :: 0 <= i < j < |ops| && ops[i].Refresh? && ops[j].Refresh? && ops[i].key == ops[j].key ==>
      ops[i].ticket < ops[j].ticket
  }

  // ------------------------------------------- from a run to operations

  function RefreshOf(pr: Proc, now: Time, response: TokenResponse): Op {
    Refresh(pr.key, pr.ticket, pr.at, now, response, false)
  }

  // The refresh under the given lock has reached the store.
  function Land(ops: seq<Op>, ticket: nat, at: Readings, stored: Time): seq<Op> {
    if ops == [] then []
    else
      var rest, o := ops[..|ops| - 1], ops[|ops| - 1];
      if o.Refresh? && o.ticket == ticket then rest + [o.(at := at, stored := stored, kept := true)]
      else Land(rest, ticket, at, stored) + [o]
  }

  // A refresh takes its place in the sequential run when the provider grants
  // it.  It counts as kept from the moment its update takes effect.
  function OpsAfter(w: World, e: Event, ops: seq<Op>): seq<Op> {
    match e
    case Redeem(_, d, _, grant, _) => if d.HasRefreshToken() then ops + [Issue(d.refreshToken, grant)] else ops
    case Delete(k) => ops + [DropSession(k)]
    case Write(p, _) => if p in w.procs then ops + [PutSession(w.procs[p].key, w.procs[p].data, w.now)] else ops
    case Grant(p, r) => if p in w.procs then ops + [RefreshOf(w.procs[p], w.now, r)] else ops
    case GrantLost(p, r) => if p in w.procs then ops + [RefreshOf(w.procs[p], w.now, r)] else ops
    case Store(p, _) =>
      if p in w.procs && InFlight(w.procs[p]) then Land(ops, w.procs[p].ticket, w.procs[p].at, w.now) else ops
    case _ => ops
  }

  function Ops(cfg: Config, start: Time, es: seq<Event>): seq<Op> {
    if es == [] then []
    else
      var before, ops := Run(cfg, start, es[..|es| - 1]), Ops(cfg, start, es[..|es| - 1]);
      if before.Some? then OpsAfter(before.value, es[|es| - 1], ops) else ops
  }

  // ------------------------------------------------- refreshes in flight

  // What a refresh in flight has in common with its operation.
  datatype Flight = Flight(key: string, ticket: nat, reread: Time, can: Time, idle: Time, response: TokenResponse)

  function FlightOf(pr: Proc): Flight {
    Flight(pr.key, pr.ticket, pr.at.reread, pr.at.can, pr.at.idle, pr.response)
  }

  predicate Touches(o: Op, k: string) {
    !o.Issue? && o.key == k
  }

  // The operation of f is in ops, not kept yet, and no later one touches its key.
  predicate Waits(ops: seq<Op>, f: Flight) {
    ops != [] &&
    var rest, o := ops[..|ops| - 1], ops[|ops| - 1];
    if o.Refresh? && o.ticket == f.ticket
    then !o.kept && f == Flight(o.key, o.ticket, o.at.reread, o.at.can, o.at.idle, o.response)
    else !Touches(o, f.key) && Waits(rest, f)
  }

  lemma WaitsOn(ops: seq<Op>, o: Op, f: Flight)
    requires Waits(ops, f) && !Touches(o, f.key) && (o.Refresh? ==> o.ticket != f.ticket)
    ensures Waits(ops + [o], f)
  {
    assert (ops + [o])[..|ops + [o]| - 1] == ops;
  }

  lemma {:induction false} WaitsThrough(ops: seq<Op>, f: Flight, ticket: nat, at: Readings, stored: Time)
    requires Waits(ops, f) && ticket != f.ticket
    ensures Waits(Land(ops, ticket, at, stored), f)
  {
    var rest, o := ops[..|ops| - 1], ops[|ops| - 1];
    var landed := Land(ops, ticket, at, stored);
    if o.Refresh? && o.ticket == ticket {
      assert landed[..|landed| - 1] == rest;
    } else {
      assert landed[..|landed| - 1] == Land(rest, ticket, at, stored);
      if !(o.Refresh? && o.ticket == f.ticket) {
        WaitsThrough(rest, f, ticket, at, stored);
      }
    }
  }

  // An operation on other keys does not care what is stored under k.
  lemma AtomicElsewhere(cfg: Config, s: Shared, o: Op, k: string, slot: Redis.Slot<Data>)
    requires !Touches(o, k)
    ensures var s' := s.(store := s.store[k := slot]);
      && Atomic(cfg, s', o) == Atomic(cfg, s, o).(store := Atomic(cfg, s, o).store[k := slot])
      && (o.Refresh? ==> (Effective(cfg, s', o) <==> Effective(cfg, s, o)))
    ensures k in Atomic(cfg, s, o).store <==> k in s.store
    ensures k in s.store ==> Atomic(cfg, s, o).store[k] == s.store[k]
  {
    var s' := s.(store := s.store[k := slot]);
    assert Atomic(cfg, s', o).store == Atomic(cfg, s, o).store[k := slot];
  }

  /** Landing a refresh that waits is the same as updating the entry of its key at the end. */
  lemma {:induction false} LandReplay(cfg: Config, ops: seq<Op>, f: Flight, at: Readings, stored: Time)
    requires Waits(ops, f) && AllEffective(cfg, ops)
    requires at.reread == f.reread && at.can == f.can && at.idle == f.idle
    requires at.idle <= at.renew <= at.extend <= stored
    ensures AllEffective(cfg, Land(ops, f.ticket, at, stored))
    ensures var s := Replay(cfg, ops);
      && f.key in s.store
      && var d := Touched(cfg.session, Renewed(s.store[f.key].value, f.response, at.renew), at.extend);
      Replay(cfg, Land(ops, f.ticket, at, stored)) == s.(store := Redis.SetKeepTtl(s.store, stored, f.key, d))
  {
    var rest, o := ops[..|ops| - 1], ops[|ops| - 1];
    var landed := Land(ops, f.ticket, at, stored);
    if o.Refresh? && o.ticket == f.ticket {
      assert landed[..|landed| - 1] == rest;
    } else {
      LandReplay(cfg, rest, f, at, stored);
      assert landed[..|landed| - 1] == Land(rest, f.ticket, at, stored);
      var s := Replay(cfg, rest);
      var d := Touched(cfg.session, Renewed(s.store[f.key].value, f.response, at.renew), at.extend);
      AtomicElsewhere(cfg, s, o, f.key, Redis.SetKeepTtl(s.store, stored, f.key, d)[f.key]);
    }
  }

  // ------------------------------------------------------ the coupling

  ghost predicate AllWait(w: World, ops: seq<Op>) {
    forall p :: Leased(w, p) && InFlight(w.procs[p]) ==> Waits(ops, FlightOf(w.procs[p]))
  }

  /** The sequential system is in the same state, and knows every refresh in flight that can still land. */
  ghost predicate Coupled(cfg: Config, w: World, ops: seq<Op>) {
    && Replay(cfg, ops) == Shared(w.store, w.live)
    && AllEffective(cfg, ops)
    && AllWait(w, ops)
  }

  // Everything known of a state of a disciplined run.
  ghost predicate Ready(cfg: Config, w: World) {
    cfg.backend.RedisStore? && LockInv(cfg, w) && AllSane(cfg, w) && forall k :: Agreement(w, k)
  }

  // Every step meets the lease and intrusion hypotheses for the key it is about.
  ghost predicate WellBehaved(w: World, e: Event) {
    forall k :: InLease(w, e, k) && NoIntrusion(w, e, k)
  }

  /** A run in which all sessions are disciplined. */
  ghost predicate AllDisciplined(cfg: Config, start: Time, es: seq<Event>) {
    forall k :: Disciplined(cfg, start, es, k)
  }

  lemma DisciplinedStep(cfg: Config, start: Time, es: seq<Event>)
    requires cfg.backend.RedisStore? && es != [] && Run(cfg, start, es).Some? && AllDisciplined(cfg, start, es)
    ensures AllDisciplined(cfg, start, es[..|es| - 1])
    ensures var w := Run(cfg, start, es[..|es| - 1]).value; Ready(cfg, w) && WellBehaved(w, es[|es| - 1])
  {
    var es0, e := es[..|es| - 1], es[|es| - 1];
    var w := Run(cfg, start, es0).value;
    forall k ensures Disciplined(cfg, start, es0, k) && InLease(w, e, k) && NoIntrusion(w, e, k) && Agreement(w, k) {
      assert Disciplined(cfg, start, es, k);
      AgreementAlways(cfg, start, es0, k);
    }
    LockInvAlways(cfg, start, es0);
    SaneAlways(cfg, start, es0);
  }

  lemma FlightAdvance(cfg: Config, now: Time, store: Redis.Keyspace<Data>, pr: Proc)
    requires CanStep(pr.pc)
    ensures var pr' := Advance(cfg, now, store, pr);
      InFlight(pr') ==> InFlight(pr) && FlightOf(pr') == FlightOf(pr)
  {
  }

  // Only a grant puts a refresh in flight.
  lemma FlightsStay(cfg: Config, w: World, e: Event, p: nat)
    requires Enabled(cfg, w, e) && !e.Grant?
    requires Leased(Next(cfg, w, e), p) && InFlight(Next(cfg, w, e).procs[p])
    ensures Leased(w, p) && InFlight(w.procs[p]) && FlightOf(Next(cfg, w, e).procs[p]) == FlightOf(w.procs[p])
    ensures !(e.Store? && e.p == p)
  {
    if e.Step? && e.p == p {
      FlightAdvance(cfg, w.now, w.store, w.procs[p]);
      AdvanceFrame(cfg, w.now, w.store, w.procs[p]);
    }
  }

  lemma ReplayMore(cfg: Config, ops: seq<Op>, o: Op)
    ensures Replay(cfg, ops + [o]) == Atomic(cfg, Replay(cfg, ops), o)
    ensures AllEffective(cfg, ops) && (o.Refresh? ==> Effective(cfg, Replay(cfg, ops), o) && InClockOrder(o)) ==>
              AllEffective(cfg, ops + [o])
  {
    assert (ops + [o])[..|ops + [o]| - 1] == ops;
  }

  // Steps that leave the store and the provider alone.
  lemma CouplingQuiet(cfg: Config, w: World, e: Event, ops: seq<Op>)
    requires Enabled(cfg, w, e) && Coupled(cfg, w, ops)
    requires !e.Redeem? && !e.Delete? && !e.Write? && !e.Grant? && !e.GrantLost? && !e.Store?
    ensures Coupled(cfg, Next(cfg, w, e), OpsAfter(w, e, ops))
  {
    var w' := Next(cfg, w, e);
    forall p | Leased(w', p) && InFlight(w'.procs[p]) ensures Waits(ops, FlightOf(w'.procs[p])) {
      FlightsStay(cfg, w, e, p);
    }
  }

  // A login's token, a login's session, or a logout: one operation, which waits for nobody.
  lemma CouplingLogin(cfg: Config, w: World, e: Event, ops: seq<Op>)
    requires Enabled(cfg, w, e) && Coupled(cfg, w, ops) && WellBehaved(w, e)
    requires e.Redeem? || e.Delete? || e.Write?
    ensures Coupled(cfg, Next(cfg, w, e), OpsAfter(w, e, ops))
  {
    var w', ops' := Next(cfg, w, e), OpsAfter(w, e, ops);
    if ops' != ops {
      ReplayMore(cfg, ops, ops'[|ops|]);
      assert ops' == ops + [ops'[|ops|]];
    }
    forall p | Leased(w', p) && InFlight(w'.procs[p]) ensures Waits(ops', FlightOf(w'.procs[p])) {
      FlightsStay(cfg, w, e, p);
      if ops' != ops {
        assert NoIntrusion(w, e, w.procs[p].key);
        WaitsOn(ops, ops'[|ops|], FlightOf(w.procs[p]));
      }
    }
  }

  /** A process past the timeout check would pass all the checks again on what is stored now. */
  lemma RefreshIsEffective(cfg: Config, w: World, p: nat)
    requires Ready(cfg, w) && Leased(w, p)
    requires PastTimeoutCheck(w.procs[p]) && !w.procs[p].stored && w.procs[p].seen.refreshToken in w.live
    ensures forall r :: Effective(cfg, Shared(w.store, w.live), RefreshOf(w.procs[p], w.now, r))
    ensures forall r :: InClockOrder(RefreshOf(w.procs[p], w.now, r))
    ensures w.procs[p].key in w.store && w.store[w.procs[p].key].value == w.procs[p].seen
  {
    assert Agreement(w, w.procs[p].key) && Agrees(w, p);
    assert Sane(cfg, w.now, w.procs[p]);
  }

  /** The provider's answer, lost or not, is the atomic refresh as far as the provider is concerned. */
  lemma CouplingGrant(cfg: Config, w: World, e: Event, ops: seq<Op>)
    requires Enabled(cfg, w, e) && Ready(cfg, w) && Coupled(cfg, w, ops) && WellBehaved(w, e)
    requires e.Grant? || e.GrantLost?
    ensures Coupled(cfg, Next(cfg, w, e), OpsAfter(w, e, ops))
  {
    var w', o, ops' := Next(cfg, w, e), RefreshOf(w.procs[e.p], w.now, e.response), OpsAfter(w, e, ops);
    assert InLease(w, e, w.procs[e.p].key);
    RefreshIsEffective(cfg, w, e.p);
    ReplayMore(cfg, ops, o);
    forall p | Leased(w', p) && InFlight(w'.procs[p]) ensures Waits(ops', FlightOf(w'.procs[p])) {
      if p != e.p {
        if w.procs[p].key == w.procs[e.p].key {
          MutualExclusion(cfg, w, p, e.p);
        }
        WaitsOn(ops, o, FlightOf(w.procs[p]));
      }
    }
  }

  /** The update is the part of the atomic refresh that was still missing. */
  lemma CouplingStore(cfg: Config, w: World, e: Event, ops: seq<Op>)
    requires Enabled(cfg, w, e) && Ready(cfg, w) && Coupled(cfg, w, ops) && WellBehaved(w, e)
    requires e.Store? && !w.procs[e.p].stored
    ensures Coupled(cfg, Next(cfg, w, e), OpsAfter(w, e, ops))
  {
    var w', pr := Next(cfg, w, e), w.procs[e.p];
    assert InLease(w, e, pr.key) && Agreement(w, pr.key);
    assert Agrees(w, e.p) && Sane(cfg, w.now, pr);
    LandReplay(cfg, ops, FlightOf(pr), pr.at, w.now);
    forall p | Leased(w', p) && InFlight(w'.procs[p]) ensures Waits(OpsAfter(w, e, ops), FlightOf(w'.procs[p])) {
      FlightsStay(cfg, w, e, p);
      WaitsThrough(ops, FlightOf(w.procs[p]), pr.ticket, pr.at, w.now);
    }
  }

  /** An update repeated after it took effect changes nothing. */
  lemma CouplingRepeat(cfg: Config, w: World, e: Event, ops: seq<Op>)
    requires Enabled(cfg, w, e) && Ready(cfg, w) && Coupled(cfg, w, ops) && WellBehaved(w, e)
    requires e.Store? && w.procs[e.p].stored
    ensures OpsAfter(w, e, ops) == ops && Coupled(cfg, Next(cfg, w, e), ops)
  {
    var w', k := Next(cfg, w, e), w.procs[e.p].key;
    assert InLease(w, e, k) && Agreement(w, k) && Agrees(w, e.p);
    assert w'.store == w.store;
    forall p | Leased(w', p) && InFlight(w'.procs[p]) ensures Waits(ops, FlightOf(w'.procs[p])) {
      FlightsStay(cfg, w, e, p);
    }
  }

  lemma CouplingStep(cfg: Config, w: World, e: Event, ops: seq<Op>)
    requires Enabled(cfg, w, e) && Ready(cfg, w) && Coupled(cfg, w, ops) && WellBehaved(w, e)
    ensures Coupled(cfg, Next(cfg, w, e), OpsAfter(w, e, ops))
  {
    if e.Redeem? || e.Delete? || e.Write? {
      CouplingLogin(cfg, w, e, ops);
    } else if e.Grant? || e.GrantLost? {
      CouplingGrant(cfg, w, e, ops);
    } else if e.Store? && w.procs[e.p].stored {
      CouplingRepeat(cfg, w, e, ops);
    } else if e.Store? {
      CouplingStore(cfg, w, e, ops);
    } else {
      CouplingQuiet(cfg, w, e, ops);
    }
  }

  lemma {:induction false} CoupledAlways(cfg: Config, start: Time, es: seq<Event>)
    requires cfg.backend.RedisStore?
    requires Run(cfg, start, es).Some? && AllDisciplined(cfg, start, es)
    ensures Coupled(cfg, Run(cfg, start, es).value, Ops(cfg, start, es))
  {
    if es != [] {
      var es0, e := es[..|es| - 1], es[|es| - 1];
      DisciplinedStep(cfg, start, es);
      CoupledAlways(cfg, start, es0);
      CouplingStep(cfg, Run(cfg, start, es0).value, e, Ops(cfg, start, es0));
    }
  }

  // --------------------------------------------------------- lock order

  lemma {:induction false} LandKeeps(ops: seq<Op>, ticket: nat, at: Readings, stored: Time)
    ensures var landed := Land(ops, ticket, at, stored);
      && |landed| == |ops|
      && forall i :: 0 <= i < |ops| && (landed[i].Refresh? || ops[i].Refresh?) ==>
           && landed[i].Refresh? && ops[i].Refresh?
           && landed[i].key == ops[i].key && landed[i].ticket == ops[i].ticket
  {
    if ops != [] {
      LandKeeps(ops[..|ops| - 1], ticket, at, stored);
    }
  }

  // o came before the lock of pr, or is the refresh of pr itself.
  ghost predicate Earlier(o: Op, pr: Proc)
    requires o.Refresh?
  {
    o.ticket < pr.ticket || (o.ticket == pr.ticket && Granted(pr))
  }

  ghost predicate OrderInv(w: World, ops: seq<Op>) {
    && InLockOrder(ops)
    && (forall i :: 0 <= i < |ops| && ops[i].Refresh? ==> ops[i].ticket < w.tickets)
    && (forall i, p ::
          0 <= i < |ops| && ops[i].Refresh? && Leased(w, p) && w.procs[p].key == ops[i].key ==>
            Earlier(ops[i], w.procs[p]))
  }

  lemma GrantedAdvance(cfg: Config, now: Time, store: Redis.Keyspace<Data>, pr: Proc)
    requires CanStep(pr.pc)
    ensures var pr' := Advance(cfg, now, store, pr);
      InSection(pr') ==> InSection(pr) && (Granted(pr') <==> Granted(pr))
  {
  }

  lemma OrderQuiet(cfg: Config, w: World, e: Event, ops: seq<Op>)
    requires Enabled(cfg, w, e) && OrderInv(w, ops)
    requires !e.Grant? && !e.GrantLost?
    ensures OrderInv(Next(cfg, w, e), ops)
  {
    if e.Step? {
      AdvanceFrame(cfg, w.now, w.store, w.procs[e.p]);
      GrantedAdvance(cfg, w.now, w.store, w.procs[e.p]);
    }
  }

  lemma OrderGrant(cfg: Config, w: World, e: Event, ops: seq<Op>)
    requires Enabled(cfg, w, e) && Ready(cfg, w) && OrderInv(w, ops) && WellBehaved(w, e)
    requires e.Grant? || e.GrantLost?
    ensures OrderInv(Next(cfg, w, e), OpsAfter(w, e, ops))
  {
    var w', ops' := Next(cfg, w, e), OpsAfter(w, e, ops);
    assert InLease(w, e, w.procs[e.p].key);
    forall i, q | 0 <= i < |ops'| && ops'[i].Refresh? && Leased(w', q) && w'.procs[q].key == ops'[i].key
      ensures Earlier(ops'[i], w'.procs[q])
    {
      if q != e.p && w.procs[q].key == w.procs[e.p].key {
        MutualExclusion(cfg, w, q, e.p);
      }
    }
  }

  // Operations that are not refreshes have no place in the lock order.
  lemma OrderIgnores(w: World, ops: seq<Op>, o: Op)
    requires OrderInv(w, ops) && !o.Refresh?
    ensures OrderInv(w, ops + [o])
  {
  }

  lemma OrderStep(cfg: Config, w: World, e: Event, ops: seq<Op>)
    requires Enabled(cfg, w, e) && Ready(cfg, w) && OrderInv(w, ops) && WellBehaved(w, e)
    ensures OrderInv(Next(cfg, w, e), OpsAfter(w, e, ops))
  {
    var w', ops' := Next(cfg, w, e), OpsAfter(w, e, ops);
    if e.Grant? || e.GrantLost? {
      OrderGrant(cfg, w, e, ops);
    } else {
      OrderQuiet(cfg, w, e, ops);
      if e.Store? {
        LandKeeps(ops, w.procs[e.p].ticket, w.procs[e.p].at, w.now);
      } else if ops' != ops {
        assert ops' == ops + [ops'[|ops|]];
        OrderIgnores(w', ops, ops'[|ops|]);
      }
    }
  }

  lemma {:induction false} LockOrderAlways(cfg: Config, start: Time, es: seq<Event>)
    requires cfg.backend.RedisStore?
    requires Run(cfg, start, es).Some? && AllDisciplined(cfg, start, es)
    ensures OrderInv(Run(cfg, start, es).value, Ops(cfg, start, es))
  {
    if es != [] {
      var es0, e := es[..|es| - 1], es[|es| - 1];
      DisciplinedStep(cfg, start, es);
      LockOrderAlways(cfg, start, es0);
      OrderStep(cfg, Run(cfg, start, es0).value, e, Ops(cfg, start, es0));
    }
  }

  // ------------------------------------------------ nothing goes missing

  // A refresh of k that is not kept is still in flight.
  ghost predicate UnkeptFly(w: World, ops: seq<Op>, k: string) {
    forall i :: 0 <= i < |ops| && ops[i].Refresh? && ops[i].key == k && !ops[i].kept ==> Flies(w, ops[i])
  }

  ghost predicate Flies(w: World, o: Op)
    requires o.Refresh?
  {
    exists p :: Leased(w, p) && InFlight(w.procs[p]) && w.procs[p].ticket == o.ticket && w.procs[p].key == o.key
  }

  // Landing keeps one operation of the flight's key and ticket, and leaves all others alone.
  lemma {:induction false} LandKeepsOne(ops: seq<Op>, f: Flight, at: Readings, stored: Time) returns (j: nat)
    requires Waits(ops, f)
    ensures var landed := Land(ops, f.ticket, at, stored);
      && |landed| == |ops| && j < |ops|
      && ops[j].Refresh? && ops[j].ticket == f.ticket && ops[j].key == f.key
      && landed[j].Refresh? && landed[j].kept
      && forall i :: 0 <= i < |ops| && i != j ==> landed[i] == ops[i]
  {
    var rest, o := ops[..|ops| - 1], ops[|ops| - 1];
    if o.Refresh? && o.ticket == f.ticket {
      j := |ops| - 1;
    } else {
      j := LandKeepsOne(rest, f, at, stored);
    }
  }

  lemma InFlightStays(cfg: Config, w: World, e: Event, p: nat)
    requires Enabled(cfg, w, e) && Ready(cfg, w)
    requires Leased(w, p) && InFlight(w.procs[p]) && NoLoss(w, e, w.procs[p].key) && !(e.Store? && e.p == p && !w.procs[p].stored)
    ensures var w' := Next(cfg, w, e);
      Leased(w', p) && InFlight(w'.procs[p]) && FlightOf(w'.procs[p]) == FlightOf(w.procs[p])
  {
    assert Agreement(w, w.procs[p].key) && Agrees(w, p);
  }

  lemma TicketsDiffer(ops: seq<Op>, i: nat, j: nat)
    requires InLockOrder(ops) && i < |ops| && j < |ops| && i != j && ops[i].Refresh? && ops[j].Refresh?
    ensures ops[i].key == ops[j].key ==> ops[i].ticket != ops[j].ticket
  {
  }

  lemma FliesOn(cfg: Config, w: World, e: Event, o: Op)
    requires Enabled(cfg, w, e) && Ready(cfg, w) && o.Refresh? && NoLoss(w, e, o.key) && Flies(w, o)
    requires e.Store? && !w.procs[e.p].stored ==> w.procs[e.p].ticket != o.ticket || w.procs[e.p].key != o.key
    ensures Flies(Next(cfg, w, e), o)
  {
    var p :| Leased(w, p) && InFlight(w.procs[p]) && w.procs[p].ticket == o.ticket && w.procs[p].key == o.key;
    InFlightStays(cfg, w, e, p);
  }

  lemma UnkeptFlyStep(cfg: Config, w: World, e: Event, ops: seq<Op>, k: string)
    requires Enabled(cfg, w, e) && Ready(cfg, w) && WellBehaved(w, e) && NoLoss(w, e, k)
    requires UnkeptFly(w, ops, k) && AllWait(w, ops) && InLockOrder(ops)
    ensures UnkeptFly(Next(cfg, w, e), OpsAfter(w, e, ops), k)
  {
    var w', ops' := Next(cfg, w, e), OpsAfter(w, e, ops);
    if e.Store? && InFlight(w.procs[e.p]) {
      assert InLease(w, e, w.procs[e.p].key);
      var j := LandKeepsOne(ops, FlightOf(w.procs[e.p]), w.procs[e.p].at, w.now);
      forall i | 0 <= i < |ops'| && ops'[i].Refresh? && ops'[i].key == k && !ops'[i].kept ensures Flies(w', ops'[i]) {
        assert ops'[i] == ops[i];
        TicketsDiffer(ops, i, j);
        FliesOn(cfg, w, e, ops[i]);
      }
    } else {
      forall i | 0 <= i < |ops'| && ops'[i].Refresh? && ops'[i].key == k && !ops'[i].kept ensures Flies(w', ops'[i]) {
        if i < |ops| {
          FliesOn(cfg, w, e, ops[i]);
        } else {
          assert Sane(cfg, w.now, w.procs[e.p]) && InLease(w, e, k);
          assert Leased(w', e.p) && InFlight(w'.procs[e.p]);
        }
      }
    }
  }

  /** When no answer and no update for k is lost, every refresh of k that was granted is stored or still in flight. */
  lemma {:induction false} NothingGoesMissing(cfg: Config, start: Time, es: seq<Event>, k: string)
    requires cfg.backend.RedisStore?
    requires Run(cfg, start, es).Some? && AllDisciplined(cfg, start, es) && Lossless(cfg, start, es, k)
    ensures UnkeptFly(Run(cfg, start, es).value, Ops(cfg, start, es), k)
  {
    if es != [] {
      var es0, e := es[..|es| - 1], es[|es| - 1];
      DisciplinedStep(cfg, start, es);
      NothingGoesMissing(cfg, start, es0, k);
      CoupledAlways(cfg, start, es0);
      LockOrderAlways(cfg, start, es0);
      UnkeptFlyStep(cfg, Run(cfg, start, es0).value, e, Ops(cfg, start, es0), k);
    }
  }

  // ------------------------------------------------------- the theorem

  /**
    Refinement: in every reachable state, replaying the operations of the run
    one by one, each refresh as a single atomic step that passes all its
    checks, gives the run's store and the provider's tokens.
   */
  lemma Refinement(cfg: Config, start: Time, es: seq<Event>)
    requires cfg.backend.RedisStore?
    requires Run(cfg, start, es).Some? && AllDisciplined(cfg, start, es)
    ensures var w, s := Run(cfg, start, es).value, Replay(cfg, Ops(cfg, start, es));
      s.store == w.store && s.live == w.live
    ensures AllEffective(cfg, Ops(cfg, start, es))
    ensures InLockOrder(Ops(cfg, start, es))
  {
    CoupledAlways(cfg, start, es);
    LockOrderAlways(cfg, start, es);
  }
}
