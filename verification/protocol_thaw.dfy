/**
  The exact condition for inactivity to be absorbing: a process does change an
  inactive session, if nothing comes in its way, when its copy can pass both
  checks and its refresh token is live.
 */
module ProtocolThaw {
  import opened SessionTime
  import opened SessionData
  import opened Wrappers
  import Redis
  import opened Provider
  import opened Protocol
  import opened ProtocolExclusion
  import opened ProtocolHistory
  import opened ProtocolInactivity
  import opened ProtocolTokens

  // es is a run that ends in w, and nobody logs in after its first n events.
  ghost predicate Reaches(cfg: Config, start: Time, es: seq<Event>, n: nat, k: string, w: World) {
    && n <= |es| && Run(cfg, start, es) == Some(w)
    && NoWriteSince(cfg, start, es, n, k) && UsesCodesOnceSince(cfg, start, es, n)
    && forall i :: n <= i < |es| ==> !es[i].Redeem? && !es[i].Write?
  }

  lemma Happens(cfg: Config, start: Time, es: seq<Event>, n: nat, k: string, w: World, e: Event)
    returns (es': seq<Event>, w': World)
    requires Reaches(cfg, start, es, n, k, w) && Enabled(cfg, w, e) && !e.Write? && !e.Redeem?
    ensures w' == Next(cfg, w, e) && Reaches(cfg, start, es', n, k, w') && es <= es'
  {
    RunSnoc(cfg, start, es, e);
    es', w' := es + [e], Next(cfg, w, e);
  }

  lemma FreshToken(used: set<string>) returns (t: string)
    ensures |t| > 0 && forall u :: u in used ==> |u| < |t|
  {
    if used == {} {
      t := "t";
    } else {
      var u :| u in used;
      var longer := FreshToken(used - {u});
      t := if |u| < |longer| then longer else u + "t";
    }
  }

  // Process p is at pc of a refresh of k, whose entry is there.
  predicate Thawing(w: World, k: string, slot: Redis.Slot<Data>, p: nat, pc: PC) {
    At(w, p, pc) && w.procs[p].key == k && k in w.store && w.store[k] == slot && Redis.Alive(slot, w.now)
  }

  // It holds a copy that passes both checks now, with a live token.
  predicate Passing(cfg: Config, w: World, k: string, slot: Redis.Slot<Data>, p: nat, pc: PC) {
    && Thawing(w, k, slot, p, pc) && PassesAt(cfg, slot, w.procs[p].seen, w.now)
    && w.procs[p].seen.refreshToken in w.live
  }

  // A copy of the session in k that can pass the checks and has a live token.
  predicate CanThaw(cfg: Config, w: World, k: string, pr: Proc)
    requires k in w.store
  {
    CanPass(cfg, w.store[k], w.now, pr) && pr.seen.refreshToken in w.live
  }

  // It has got a new token.
  predicate Renews(w: World, k: string, slot: Redis.Slot<Data>, p: nat, pc: PC, token: string) {
    && Thawing(w, k, slot, p, pc)
    && token == if pc.Renewing? then w.procs[p].response.refreshToken else w.procs[p].data.refreshToken
  }

  lemma WaitsOutCooldown(cfg: Config, w: World, k: string, p: nat, d: nat)
    requires p in w.procs && w.procs[p].key == k && k in w.store && CanThaw(cfg, w, k, w.procs[p])
    requires w.now + d == Max(w.now, w.procs[p].seen.meta.RefreshCooldown())
    ensures Passing(cfg, Next(cfg, w, Tick(d)), k, w.store[k], p, w.procs[p].pc)
  {
  }

  lemma PassesChecks(cfg: Config, w: World, k: string, slot: Redis.Slot<Data>, p: nat, pc: PC)
    requires pc.CheckingCan? || pc.CheckingTimeout?
    requires Passing(cfg, w, k, slot, p, pc)
    ensures Passing(cfg, Next(cfg, w, Step(p)), k, slot, p, if pc.CheckingCan? then CheckingTimeout else Granting)
  {
  }

  lemma GetsToken(cfg: Config, w: World, k: string, slot: Redis.Slot<Data>, p: nat, r: TokenResponse)
    requires Thawing(w, k, slot, p, Granting) && w.procs[p].seen.refreshToken in w.live && FreshResponse(w, r)
    ensures Renews(Next(cfg, w, Grant(p, r)), k, slot, p, Renewing, r.refreshToken)
  {
  }

  lemma Renewals(cfg: Config, w: World, k: string, slot: Redis.Slot<Data>, p: nat, pc: PC, token: string)
    requires pc.Renewing? || pc.Extending? || pc.Updating?
    requires Renews(w, k, slot, p, pc, token)
    ensures Renews(Next(cfg, w, Step(p)), k, slot, p,
                   if pc.Renewing? then Extending else if pc.Extending? then Updating else Setting, token)
  {
  }

  // From its copy to the point where it asks for new tokens.
  lemma GetsToAsk(cfg: Config, start: Time, es: seq<Event>, n: nat, w: World, k: string, p: nat)
    returns (es': seq<Event>, w': World)
    requires Reaches(cfg, start, es, n, k, w)
    requires p in w.procs && w.procs[p].key == k && k in w.store && CanThaw(cfg, w, k, w.procs[p])
    ensures Reaches(cfg, start, es', n, k, w') && es <= es' && Passing(cfg, w', k, w.store[k], p, Granting)
  {
    var slot, d := w.store[k], Max(w.now, w.procs[p].seen.meta.RefreshCooldown()) - w.now;
    WaitsOutCooldown(cfg, w, k, p, d);
    es', w' := Happens(cfg, start, es, n, k, w, Tick(d));
    if w.procs[p].pc.CheckingCan? {
      PassesChecks(cfg, w', k, slot, p, CheckingCan);
      es', w' := Happens(cfg, start, es', n, k, w', Step(p));
    }
    PassesChecks(cfg, w', k, slot, p, CheckingTimeout);
    es', w' := Happens(cfg, start, es', n, k, w', Step(p));
  }

  lemma IsGranted(cfg: Config, start: Time, es: seq<Event>, n: nat, w: World, k: string, slot: Redis.Slot<Data>, p: nat)
    returns (es': seq<Event>, w': World, token: string)
    requires Reaches(cfg, start, es, n, k, w) && Passing(cfg, w, k, slot, p, Granting)
    ensures Reaches(cfg, start, es', n, k, w') && es <= es'
    ensures Renews(w', k, slot, p, Renewing, token) && token != slot.value.refreshToken
  {
    token := FreshToken(w.issued + {slot.value.refreshToken});
    GetsToken(cfg, w, k, slot, p, TokenResponse("", token, 0));
    es', w' := Happens(cfg, start, es, n, k, w, Grant(p, TokenResponse("", token, 0)));
  }

  lemma Writes(cfg: Config, start: Time, es: seq<Event>, n: nat, w: World, k: string, slot: Redis.Slot<Data>, p: nat, token: string)
    returns (es': seq<Event>, w': World)
    requires Reaches(cfg, start, es, n, k, w) && Renews(w, k, slot, p, Renewing, token)
    ensures Reaches(cfg, start, es', n, k, w') && es <= es'
    ensures k in w'.store && w'.store[k].value.refreshToken == token
  {
    Renewals(cfg, w, k, slot, p, Renewing, token);
    var es1, w1 := Happens(cfg, start, es, n, k, w, Step(p));
    Renewals(cfg, w1, k, slot, p, Extending, token);
    var es2, w2 := Happens(cfg, start, es1, n, k, w1, Step(p));
    Renewals(cfg, w2, k, slot, p, Updating, token);
    var es3, w3 := Happens(cfg, start, es2, n, k, w2, Step(p));
    es', w' := Happens(cfg, start, es3, n, k, w3, Store(p, true));
  }

  /** Such a copy can thaw the session: a continuation, without logins, in which it does. */
  lemma Thaws(cfg: Config, start: Time, es: seq<Event>, k: string, p: nat) returns (more: seq<Event>)
    requires Run(cfg, start, es).Some?
    requires var w := Run(cfg, start, es).value;
      p in w.procs && w.procs[p].key == k && k in w.store && CanThaw(cfg, w, k, w.procs[p])
    ensures Continues(cfg, start, es, more, k) && forall e :: e in more ==> !e.Redeem? && !e.Write?
    ensures var w, w' := Run(cfg, start, es).value, Run(cfg, start, es + more).value;
      k in w'.store && w'.store[k] != w.store[k]
  {
    var w := Run(cfg, start, es).value;
    var es1, w1 := GetsToAsk(cfg, start, es, |es|, w, k, p);
    var es2, w2, token := IsGranted(cfg, start, es1, |es|, w1, k, w.store[k], p);
    var es3, w3 := Writes(cfg, start, es2, |es|, w2, k, w.store[k], p, token);
    more := es3[|es|..];
    assert es3 == es + more;
    forall e | e in more ensures !e.Redeem? && !e.Write? {
      var i :| 0 <= i < |more| && more[i] == e;
      assert es3[|es| + i] == e;
    }
  }

  // more goes on after es; no login writes k in it, and no code is used twice.
  ghost predicate Continues(cfg: Config, start: Time, es: seq<Event>, more: seq<Event>, k: string) {
    && Run(cfg, start, es + more).Some?
    && NoWriteSince(cfg, start, es + more, |es|, k) && UsesCodesOnceSince(cfg, start, es + more, |es|)
  }

  // Nothing but a deletion happens to the entry of k until a login writes it.
  ghost predicate StaysInactive(cfg: Config, start: Time, es: seq<Event>, k: string)
    requires Run(cfg, start, es).Some? && k in Run(cfg, start, es).value.store
  {
    forall more :: Continues(cfg, start, es, more, k) ==>
      var w, w' := Run(cfg, start, es).value, Run(cfg, start, es + more).value;
      k in w'.store ==> w'.store[k] == w.store[k]
  }

  lemma NobodyCanThaw(cfg: Config, start: Time, es: seq<Event>, k: string)
    requires Run(cfg, start, es).Some? && Inactive(cfg, Run(cfg, start, es).value, k, false)
    requires var w := Run(cfg, start, es).value;
      forall p :: p in w.procs && w.procs[p].key == k ==> !CanThaw(cfg, w, k, w.procs[p])
    ensures var w := Run(cfg, start, es).value; Frozen(cfg, w, k, w.store[k], Assumed(true, false))
  {
    TokensAreIssued(cfg, start, es);
    var w := Run(cfg, start, es).value;
    forall p | p in w.procs && w.procs[p].key == k
      ensures Harmless(cfg, w.store[k], w, Assumed(true, false), w.procs[p])
    {
      assert HeldIssued(w.issued, w.procs[p]);
    }
  }

  /**
    As long as codes are used once, an inactive session stays as it is until a
    login writes its key, whatever happens, exactly when no process holds a copy
    of it that can pass the checks and whose refresh token is live.
   */
  lemma StaysInactiveIff(cfg: Config, start: Time, es: seq<Event>, k: string)
    requires Run(cfg, start, es).Some? && Inactive(cfg, Run(cfg, start, es).value, k, false)
    ensures var w := Run(cfg, start, es).value;
      StaysInactive(cfg, start, es, k) <==>
      forall p :: p in w.procs && w.procs[p].key == k ==> !CanThaw(cfg, w, k, w.procs[p])
  {
    var w := Run(cfg, start, es).value;
    if p :| p in w.procs && w.procs[p].key == k && CanThaw(cfg, w, k, w.procs[p]) {
      var more := Thaws(cfg, start, es, k, p);
    } else {
      NobodyCanThaw(cfg, start, es, k);
      forall more | Continues(cfg, start, es, more, k)
        ensures var w' := Run(cfg, start, es + more).value; k in w'.store ==> w'.store[k] == w.store[k]
      {
        assert (es + more)[..|es|] == es;
        InactivityIsAbsorbing(cfg, start, es + more, |es|, k, w.store[k], Assumed(true, false));
      }
    }
  }
}
