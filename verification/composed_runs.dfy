/**
  The protocol and the identity provider run together: every login redeems a
  code and every grant refreshes a token at the provider, and the protocol's
  picture of the provider is derived from what the provider holds.
 */
module ComposedRuns {
  import opened SessionData
  import opened Wrappers
  import opened Provider
  import opened ProviderRuns
  import Protocol
  import Exclusion = ProtocolExclusion
  import Tokens = ProtocolTokens

  // A step of the two together.
  datatype Joint =
    | Local(event: Protocol.Event)                                // of the protocol alone
    | Login(event: Protocol.Event, codeForm: CodeForm)            // a login, or one that stops right away, redeems a code
    | Refresh(event: Protocol.Event, refreshForm: RefreshForm, uuid: string)
    | Elsewhere(call: Call)                                       // a request to the provider that hands out no refresh token

  function CallOf(j: Joint): seq<Call> {
    match j
    case Local(_) => []
    case Login(_, f) => [CodeCall(f)]
    case Refresh(_, f, uuid) => [RefreshCall(f, uuid)]
    case Elsewhere(c) => [c]
  }

  function EventOf(j: Joint): seq<Protocol.Event> {
    if j.Elsewhere? then [] else [j.event]
  }

  function CallsOf(js: seq<Joint>): seq<Call> {
    if js == [] then [] else CallsOf(js[..|js| - 1]) + CallOf(js[|js| - 1])
  }

  function EventsOf(js: seq<Joint>): seq<Protocol.Event> {
    if js == [] then [] else EventsOf(js[..|js| - 1]) + EventOf(js[|js| - 1])
  }

  /** What the provider, not the protocol, decides: whether a request is accepted, and which tokens it brings. */
  predicate Happens(challenge: string -> string, cfg: Protocol.Config, s: State, w: Protocol.World, j: Joint) {
    match j
    case Local(e) => Protocol.Enabled(cfg, w, e) && !e.Redeem? && !e.Grant? && !e.GrantLost?
    case Login(e, f) =>
      && Protocol.Enabled(cfg, w, e) && e.Redeem? && Accepts(challenge, s, CodeCall(f))
      && e.session.refreshToken == CodeToken(f.code) && e.grant == GrantOf(s.codes, f.code)
    case Refresh(e, f, uuid) =>
      && (e.Grant? || e.GrantLost?) && Accepts(challenge, s, RefreshCall(f, uuid))
      && Protocol.At(w, e.p, Protocol.Granting) && f.refreshToken == w.procs[e.p].seen.refreshToken
      && e.response.refreshToken == RotatedToken(uuid)
    case Elsewhere(c) => c.AuthorizeCall? || !Accepts(challenge, s, c)
  }

  ghost predicate IsRun(challenge: string -> string, cfg: Protocol.Config, start: int, js: seq<Joint>) {
    js == [] ||
    var rest := js[..|js| - 1];
    && IsRun(challenge, cfg, start, rest)
    && var before := Protocol.Run(cfg, start, EventsOf(rest));
    before.Some? && Happens(challenge, cfg, After(challenge, CallsOf(rest)), before.value, js[|js| - 1])
  }

  lemma FreshPrefix(cs: seq<Call>, more: seq<Call>)
    requires FreshValues(cs + more)
    ensures FreshValues(cs)
  {
    forall i, j | 0 <= i < j < |cs|
      ensures && (cs[i].AuthorizeCall? && cs[j].AuthorizeCall? ==> cs[i].code != cs[j].code)
              && (cs[i].RefreshCall? && cs[j].RefreshCall? ==> cs[i].uuid != cs[j].uuid)
    {
      assert (cs + more)[i] == cs[i] && (cs + more)[j] == cs[j];
    }
  }

  // A request that hands out nothing changes nothing that the protocol sees.
  lemma ElsewhereIsUnseen(challenge: string -> string, cs: seq<Call>, c: Call, w: Protocol.World)
    requires Seen(challenge, cs, w) && (c.AuthorizeCall? || !Accepts(challenge, After(challenge, cs), c))
    ensures Seen(challenge, cs + [c], w)
  {
    AfterMore(challenge, cs, c);
  }

  lemma RefreshIsSeen(challenge: string -> string, cs: seq<Call>, cfg: Protocol.Config, w: Protocol.World, j: Joint)
    requires Seen(challenge, cs, w) && j.Refresh? && Happens(challenge, cfg, After(challenge, cs), w, j)
    requires FreshValues(cs + [RefreshCall(j.refreshForm, j.uuid)])
    ensures Protocol.Enabled(cfg, w, j.event)
    ensures Seen(challenge, cs + [RefreshCall(j.refreshForm, j.uuid)], Protocol.Next(cfg, w, j.event))
  {
    GrantsAreFresh(challenge, cs, j.refreshForm, j.uuid, cfg, w, j.event.p, j.event.response);
  }

  lemma EventIsSeen(challenge: string -> string, cfg: Protocol.Config, cs: seq<Call>, w: Protocol.World, j: Joint)
    requires Seen(challenge, cs, w) && !j.Elsewhere? && Happens(challenge, cfg, After(challenge, cs), w, j)
    requires FreshValues(cs + CallOf(j))
    ensures Protocol.Enabled(cfg, w, j.event)
    ensures Seen(challenge, cs + CallOf(j), Protocol.Next(cfg, w, j.event))
  {
    if j.Login? {
      SingleUseCodesIff(challenge, cs, j.codeForm, cfg, w, j.event);
    } else if j.Refresh? {
      RefreshIsSeen(challenge, cs, cfg, w, j);
    } else {
      assert cs + CallOf(j) == cs;
    }
  }

  lemma SeenStep(challenge: string -> string, cfg: Protocol.Config, start: int, cs: seq<Call>, es: seq<Protocol.Event>, j: Joint)
    requires Protocol.Run(cfg, start, es).Some? && Seen(challenge, cs, Protocol.Run(cfg, start, es).value)
    requires Happens(challenge, cfg, After(challenge, cs), Protocol.Run(cfg, start, es).value, j)
    requires FreshValues(cs + CallOf(j))
    ensures Protocol.Run(cfg, start, es + EventOf(j)).Some?
    ensures Seen(challenge, cs + CallOf(j), Protocol.Run(cfg, start, es + EventOf(j)).value)
  {
    var w := Protocol.Run(cfg, start, es).value;
    if j.Elsewhere? {
      ElsewhereIsUnseen(challenge, cs, j.call, w);
      assert es + EventOf(j) == es;
    } else {
      EventIsSeen(challenge, cfg, cs, w, j);
      Exclusion.RunSnoc(cfg, start, es, j.event);
    }
  }

  /**
    Whatever the two do together is a run of the protocol in which the
    provider's tokens are as the protocol has them; all the protocol takes for
    granted of them follows from random values not repeating.
   */
  lemma {:induction false} ProviderIsAsSeen(challenge: string -> string, cfg: Protocol.Config, start: int, js: seq<Joint>)
    requires IsRun(challenge, cfg, start, js) && FreshValues(CallsOf(js))
    ensures Protocol.Run(cfg, start, EventsOf(js)).Some?
    ensures Seen(challenge, CallsOf(js), Protocol.Run(cfg, start, EventsOf(js)).value)
  {
    if js != [] {
      var rest, j := js[..|js| - 1], js[|js| - 1];
      FreshPrefix(CallsOf(rest), CallOf(j));
      ProviderIsAsSeen(challenge, cfg, start, rest);
      SeenStep(challenge, cfg, start, CallsOf(rest), EventsOf(rest), j);
    }
  }

  // No code is redeemed a second time.
  predicate RedeemsOnce(challenge: string -> string, cs: seq<Call>) {
    cs == [] ||
    var rest, c := cs[..|cs| - 1], cs[|cs| - 1];
    && RedeemsOnce(challenge, rest)
    && (c.CodeCall? && Accepts(challenge, After(challenge, rest), c) ==> !Redeemed(challenge, rest, c.codeForm.code))
  }

  lemma RedeemsOnceMore(challenge: string -> string, cs: seq<Call>, c: Call)
    ensures RedeemsOnce(challenge, cs + [c]) <==>
            && RedeemsOnce(challenge, cs)
            && (c.CodeCall? && Accepts(challenge, After(challenge, cs), c) ==> !Redeemed(challenge, cs, c.codeForm.code))
  {
    assert (cs + [c])[..|cs + [c]| - 1] == cs;
  }

  lemma OnceStep(challenge: string -> string, cfg: Protocol.Config, start: int, cs: seq<Call>, es: seq<Protocol.Event>, j: Joint)
    requires Protocol.Run(cfg, start, es).Some? && Seen(challenge, cs, Protocol.Run(cfg, start, es).value)
    requires Happens(challenge, cfg, After(challenge, cs), Protocol.Run(cfg, start, es).value, j)
    requires Protocol.UsesCodesOnce(cfg, start, es) <==> RedeemsOnce(challenge, cs)
    ensures Protocol.UsesCodesOnce(cfg, start, es + EventOf(j)) <==> RedeemsOnce(challenge, cs + CallOf(j))
  {
    var w := Protocol.Run(cfg, start, es).value;
    if j.Local? {
      assert cs + CallOf(j) == cs;
    } else {
      RedeemsOnceMore(challenge, cs, CallOf(j)[0]);
    }
    if j.Elsewhere? {
      assert es + EventOf(j) == es;
    } else {
      Exclusion.RunSnoc(cfg, start, es, j.event);
      if j.Login? {
        SingleUseCodesIff(challenge, cs, j.codeForm, cfg, w, j.event);
      }
    }
  }

  /** The protocol's hypothesis on codes holds of a run exactly when no code is redeemed a second time. */
  lemma {:induction false} UsesCodesOnceIff(challenge: string -> string, cfg: Protocol.Config, start: int, js: seq<Joint>)
    requires IsRun(challenge, cfg, start, js) && FreshValues(CallsOf(js))
    ensures Protocol.UsesCodesOnce(cfg, start, EventsOf(js)) <==> RedeemsOnce(challenge, CallsOf(js))
  {
    if js != [] {
      var rest, j := js[..|js| - 1], js[|js| - 1];
      FreshPrefix(CallsOf(rest), CallOf(j));
      UsesCodesOnceIff(challenge, cfg, start, rest);
      ProviderIsAsSeen(challenge, cfg, start, rest);
      OnceStep(challenge, cfg, start, CallsOf(rest), EventsOf(rest), j);
    }
  }

  // A run with fresh random values in which no code is redeemed a second time, and all goes well with k.
  ghost predicate IsGoodRun(challenge: string -> string, cfg: Protocol.Config, start: int, js: seq<Joint>, k: string) {
    && IsRun(challenge, cfg, start, js) && FreshValues(CallsOf(js)) && RedeemsOnce(challenge, CallsOf(js))
    && Protocol.Disciplined(cfg, start, EventsOf(js), k) && Protocol.Lossless(cfg, start, EventsOf(js), k)
    && Tokens.WritesUnspent(cfg, start, EventsOf(js), k)
  }

  /**
    The provider accepts the refresh token of every stored session between its
    refreshes, when no code is redeemed a second time and all goes well with
    that session.
   */
  lemma StoredTokensAreAccepted(challenge: string -> string, cfg: Protocol.Config, start: int, js: seq<Joint>, k: string)
    requires cfg.backend.RedisStore? && IsGoodRun(challenge, cfg, start, js, k)
    ensures Protocol.Run(cfg, start, EventsOf(js)).Some?
    ensures var w, s := Protocol.Run(cfg, start, EventsOf(js)).value, After(challenge, CallsOf(js));
      k in w.store && Tokens.Settled(w, k) && w.store[k].value.HasRefreshToken() ==>
        !Refused(s, w.store[k].value.refreshToken)
  {
    ProviderIsAsSeen(challenge, cfg, start, js);
    UsesCodesOnceIff(challenge, cfg, start, js);
    Tokens.UsesCodesOnceForEach(cfg, start, EventsOf(js), k);
    Tokens.StoredTokensAreLive(cfg, start, EventsOf(js), k);
    var w := Protocol.Run(cfg, start, EventsOf(js)).value;
    if k in w.store {
      RefusedIff(challenge, CallsOf(js), w.store[k].value.refreshToken);
    }
  }
}
