/**
  Why inactivity is absorbing only if no process holds a copy that can pass the
  checks.  Create takes no lock: a login that was slow to write puts an older,
  timed out session in the place of one that a refresh has just re-read.
 */
module ProtocolStaleLogin {
  import opened SessionTime
  import opened SessionData
  import opened SessionKeys
  import opened Wrappers
  import Redis
  import opened Protocol
  import opened ProtocolExclusion
  import opened ProtocolHistory
  import opened ProtocolInactivity
  import opened ProtocolThaw
  import opened ProtocolChain

  function Cfg(b: Backend): Config {
    Config(SessionConfig(true, true, 60, 1000), b, "openid", "app")
  }

  const K: string := Key("openid", "app", "sid")

  // The login of process p.  Its tokens are due for renewal at once.
  function EntryOf(b: Backend, p: nat, refreshToken: string): Entry {
    Entry(Cfg(b), p, Data("sid", "access", "id", refreshToken, "jti", EMPTY_META), 0)
  }

  // Both logins write at time 50.
  function SlotOf(b: Backend, d: Data): Redis.Slot<Data> {
    Redis.Slot(d, if b.RedisStore? then Some(1050) else None)
  }

  // The first one computes its metadata at time 1, the second one at time 50.
  function Old(b: Backend): Data {
    Stamped(EntryOf(b, 0, "b"), 1)
  }

  function JobOf(b: Backend): Job {
    Job(Cfg(b), 2, K, SlotOf(b, Stamped(EntryOf(b, 1, "a"), 50)), TokenResponse("new", "c", 0))
  }

  lemma Occurs(b: Backend, es: seq<Event>, w: World, e: Event) returns (es': seq<Event>, w': World)
    requires Run(Cfg(b), 1, es) == Some(w) && Enabled(Cfg(b), w, e)
    ensures w' == Next(Cfg(b), w, e) && Run(Cfg(b), 1, es') == Some(w')
  {
    RunSnoc(Cfg(b), 1, es, e);
    es', w' := es + [e], Next(Cfg(b), w, e);
  }

  // The first login is about to write.
  predicate IsSlow(b: Backend, w: World) {
    At(w, 0, Writing) && w.procs[0].key == K && w.procs[0].data == Old(b)
  }

  lemma FirstLoginWaits(b: Backend) returns (es: seq<Event>, w: World)
    ensures Run(Cfg(b), 1, es) == Some(w) && w.now == 50 && w.procs.Keys == {0} && IsSlow(b, w)
    ensures w.locks == map[] && w.issued == {"b"}
  {
    var es1, w1 := LogsIn(EntryOf(b, 0, "b"), 1, [], Init(1));
    es, w := Occurs(b, es1, w1, Tick(49));
  }

  lemma SecondLoginWaits(b: Backend) returns (es: seq<Event>, w: World)
    ensures Run(Cfg(b), 1, es) == Some(w) && w.now == 50 && w.procs.Keys == {0, 1} && IsSlow(b, w)
    ensures At(w, 1, Writing) && w.procs[1].key == K && w.procs[1].data == JobOf(b).slot.value
    ensures w.locks == map[] && "a" in w.live && w.issued == {"a", "b"}
  {
    var es1, w1 := FirstLoginWaits(b);
    es, w := LogsIn(EntryOf(b, 1, "a"), 1, es1, w1);
  }

  lemma SecondLoginOvertakes(b: Backend) returns (es: seq<Event>, w: World)
    ensures Run(Cfg(b), 1, es) == Some(w) && w.now == 50 && w.procs.Keys == {0, 1} && IsSlow(b, w)
    ensures CanStart(JobOf(b), w) && At(w, 1, Done)
  {
    var es1, w1 := SecondLoginWaits(b);
    es, w := Occurs(b, es1, w1, Write(1, true));
  }

  // A refresh has re-read the second login's session; then the first one writes, and time goes by.
  lemma FirstLoginWrites(b: Backend) returns (es: seq<Event>, w: World)
    ensures Run(Cfg(b), 1, es) == Some(w) && Inactive(Cfg(b), w, K, false)
    ensures 2 in w.procs && w.procs[2].key == K && CanThaw(Cfg(b), w, K, w.procs[2])
  {
    var es1, w1 := SecondLoginOvertakes(b);
    var es2, w2 := GetsTo(JobOf(b), 1, es1, w1, CheckingCan);
    var es3, w3 := Occurs(b, es2, w2, Write(0, true));
    es, w := Occurs(b, es3, w3, Tick(20));
    StaleCopy(b, w3);
  }

  lemma StaleCopy(b: Backend, w: World)
    requires w.now == 50 && w.procs.Keys == {0, 1, 2} && At(w, 0, Done) && At(w, 1, Done)
    requires At(w, 2, CheckingCan) && w.procs[2].key == K && w.procs[2].seen == JobOf(b).slot.value && "a" in w.live
    requires K in w.store && w.store[K] == SlotOf(b, Old(b))
    ensures var w' := Next(Cfg(b), w, Tick(20)); Inactive(Cfg(b), w', K, false) && CanThaw(Cfg(b), w', K, w'.procs[2])
  {
  }

  /**
    Whatever the store, there is a reachable state in which the stored session
    has timed out and no process is between its timeout check and the end of its
    update; and yet a refresh can change the session, with no further login.
   */
  lemma StaleLoginThawsInactiveSession(b: Backend) returns (es: seq<Event>, more: seq<Event>, w: World, w': World)
    ensures Run(Cfg(b), 1, es) == Some(w) && Run(Cfg(b), 1, es + more) == Some(w')
    ensures forall e :: e in more ==> !e.Redeem? && !e.Write?
    ensures Inactive(Cfg(b), w, K, false)
    ensures K in w'.store && w'.store[K] != w.store[K]
  {
    es, w := FirstLoginWrites(b);
    more := Thaws(Cfg(b), 1, es, K, 2);
    w' := Run(Cfg(b), 1, es + more).value;
  }
}
