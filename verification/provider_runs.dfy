/**
  Any number of requests to the identity provider, in any order: what becomes of
  codes and of refresh tokens, and how the protocol's picture of the provider
  follows from it.
 */
module ProviderRuns {
  import opened SessionData
  import opened Provider
  import Protocol

  const EMPTY: State := State(map[], map[], map[])

  /** The provider's tables after a sequence of requests. */
  function After(challenge: string -> string, cs: seq<Call>): State {
    if cs == [] then EMPTY
    else AfterCall(challenge, After(challenge, cs[..|cs| - 1]), cs[|cs| - 1])
  }

  // The request at place i was granted.
  predicate Granted(challenge: string -> string, cs: seq<Call>, i: nat) {
    i < |cs| && Accepts(challenge, After(challenge, cs[..i]), cs[i])
  }

  // It was granted, and redeemed a code for the token t.
  predicate RedeemsFor(challenge: string -> string, cs: seq<Call>, i: nat, t: string) {
    Granted(challenge, cs, i) && cs[i].CodeCall? && CodeToken(cs[i].codeForm.code) == t
  }

  // Random values do not repeat.
  ghost predicate FreshValues(cs: seq<Call>) {
    forall i, j :: 0 <= i < j < |cs| ==>
      && (cs[i].AuthorizeCall? && cs[j].AuthorizeCall? ==> cs[i].code != cs[j].code)
      && (cs[i].RefreshCall? && cs[j].RefreshCall? ==> cs[i].uuid != cs[j].uuid)
  }

  // --------------------------------------------------------------- codes

  lemma {:induction false} CodesAreIssued(challenge: string -> string, cs: seq<Call>, code: string)
    requires code in After(challenge, cs).codes
    ensures exists i :: 0 <= i < |cs| && cs[i].AuthorizeCall? && cs[i].code == code
  {
    var last := |cs| - 1;
    if !(cs[last].AuthorizeCall? && cs[last].code == code) {
      CodesAreIssued(challenge, cs[..last], code);
      var i :| 0 <= i < last && cs[..last][i].AuthorizeCall? && cs[..last][i].code == code;
      assert cs[i].AuthorizeCall? && cs[i].code == code;
    }
  }

  /** A code grant that is accepted once is accepted ever after: nothing makes a code single-use. */
  lemma {:induction false} AcceptedCodesStay(challenge: string -> string, cs: seq<Call>, n: nat, f: CodeForm)
    requires FreshValues(cs) && n <= |cs|
    requires CodeGrantError(challenge, After(challenge, cs[..n]).codes, f).None?
    ensures CodeGrantError(challenge, After(challenge, cs).codes, f).None?
  {
    if n == |cs| {
      assert cs[..n] == cs;
    } else {
      var last := |cs| - 1;
      assert cs[..last][..n] == cs[..n];
      AcceptedCodesStay(challenge, cs[..last], n, f);
      CodesAreIssued(challenge, cs[..last], f.code);
    }
  }

  // -------------------------------------------------------------- tokens

  // Every refresh token handed out so far.
  function Issued(challenge: string -> string, cs: seq<Call>): set<string> {
    if cs == [] then {}
    else
      var c := cs[|cs| - 1];
      Issued(challenge, cs[..|cs| - 1]) +
      if !Accepts(challenge, After(challenge, cs[..|cs| - 1]), c) then {}
      else
        match c
        case AuthorizeCall(_, _, _) => {}
        case CodeCall(f) => {CodeToken(f.code)}
        case RefreshCall(_, uuid) => {RotatedToken(uuid)}
  }

  predicate Redeemed(challenge: string -> string, cs: seq<Call>, code: string) {
    cs != [] &&
    var rest, c := cs[..|cs| - 1], cs[|cs| - 1];
    || (c.CodeCall? && c.codeForm.code == code && Accepts(challenge, After(challenge, rest), c))
    || Redeemed(challenge, rest, code)
  }

  // What is known of a live token.
  predicate Usable(t: string, data: RefreshTokenData) {
    |t| > 0 && |data.clientID| > 0
  }

  ghost predicate AllUsable(s: State) {
    && (forall code :: code in s.codes ==> |s.codes[code].clientID| > 0)
    && (forall t :: t in s.refreshTokens ==> Usable(t, s.refreshTokens[t]))
  }

  lemma UsableAfterCall(challenge: string -> string, s: State, c: Call)
    requires AllUsable(s)
    ensures AllUsable(AfterCall(challenge, s, c))
  {
    if c.CodeCall? && Accepts(challenge, s, c) {
      assert |s.codes[c.codeForm.code].clientID| > 0;
    }
    if c.RefreshCall? && Accepts(challenge, s, c) {
      assert Usable(c.refreshForm.refreshToken, s.refreshTokens[c.refreshForm.refreshToken]);
    }
  }

  lemma {:induction false} LiveTokens(challenge: string -> string, cs: seq<Call>)
    ensures AllUsable(After(challenge, cs))
    ensures After(challenge, cs).refreshTokens.Keys <= Issued(challenge, cs)
  {
    if cs != [] {
      LiveTokens(challenge, cs[..|cs| - 1]);
      UsableAfterCall(challenge, After(challenge, cs[..|cs| - 1]), cs[|cs| - 1]);
    }
  }

  // Tokens of codes and replacements are told apart by how they end.
  lemma {:induction false} CodeTokenIssuedIff(challenge: string -> string, cs: seq<Call>, code: string)
    ensures CodeToken(code) in Issued(challenge, cs) <==> Redeemed(challenge, cs, code)
  {
    if cs != [] {
      var c := cs[|cs| - 1];
      CodeTokenIssuedIff(challenge, cs[..|cs| - 1], code);
      if c.CodeCall? && CodeToken(c.codeForm.code) == CodeToken(code) {
        CodeTokenInjective(c.codeForm.code, code);
      }
      if c.RefreshCall? {
        CodeTokenNotRotated(code, c.uuid);
      }
    }
  }

  lemma {:induction false} RotatedTokenIsNew(challenge: string -> string, cs: seq<Call>, uuid: string)
    requires forall i :: 0 <= i < |cs| && cs[i].RefreshCall? ==> cs[i].uuid != uuid
    ensures RotatedToken(uuid) !in Issued(challenge, cs)
  {
    if cs != [] {
      var c := cs[|cs| - 1];
      RotatedTokenIsNew(challenge, cs[..|cs| - 1], uuid);
      if c.CodeCall? {
        CodeTokenNotRotated(c.codeForm.code, uuid);
      }
      if c.RefreshCall? && RotatedToken(c.uuid) == RotatedToken(uuid) {
        RotatedTokenInjective(c.uuid, uuid);
      }
    }
  }

  // No form with this refresh token is accepted.
  ghost predicate Refused(s: State, t: string) {
    forall f: RefreshForm :: f.refreshToken == t ==> RefreshGrantError(s.refreshTokens, f).Some?
  }

  lemma RefusedIff(challenge: string -> string, cs: seq<Call>, t: string)
    ensures Refused(After(challenge, cs), t) <==> t !in After(challenge, cs).refreshTokens
  {
    var s := After(challenge, cs);
    if t in s.refreshTokens {
      LiveTokens(challenge, cs);
      assert Usable(t, s.refreshTokens[t]);
      assert RefreshGrantError(s.refreshTokens, RefreshForm(t, s.refreshTokens[t].clientID, ValidAssertion)).None?;
    }
  }

  // What uses t up, or does not bring it about.
  lemma DeadAfterCall(challenge: string -> string, s: State, c: Call, t: string)
    requires t !in s.refreshTokens || (c.RefreshCall? && Accepts(challenge, s, c) && c.refreshForm.refreshToken == t)
    requires c.CodeCall? && Accepts(challenge, s, c) ==> CodeToken(c.codeForm.code) != t
    requires c.RefreshCall? ==> RotatedToken(c.uuid) != t
    ensures t !in AfterCall(challenge, s, c).refreshTokens
  {
  }

  // A token used at place n is not a replacement drawn then or later.
  lemma UsedTokenIsOlder(challenge: string -> string, cs: seq<Call>, n: nat, i: nat)
    requires FreshValues(cs) && n <= i < |cs|
    requires Granted(challenge, cs, n) && cs[n].RefreshCall? && cs[i].RefreshCall?
    ensures cs[n].refreshForm.refreshToken != RotatedToken(cs[i].uuid)
  {
    LiveTokens(challenge, cs[..n]);
    RotatedTokenIsNew(challenge, cs[..n], cs[i].uuid);
  }

  // A token used at place n stays dead for as long as its code is not redeemed.
  lemma {:induction false} SpentTokenIsDead(challenge: string -> string, cs: seq<Call>, n: nat, m: nat)
    requires FreshValues(cs) && n < m <= |cs|
    requires Granted(challenge, cs, n) && cs[n].RefreshCall?
    requires forall i :: n < i < m ==> !RedeemsFor(challenge, cs, i, cs[n].refreshForm.refreshToken)
    ensures cs[n].refreshForm.refreshToken !in After(challenge, cs[..m]).refreshTokens
  {
    var t, last := cs[n].refreshForm.refreshToken, m - 1;
    assert cs[..m][..last] == cs[..last];
    if cs[last].RefreshCall? {
      UsedTokenIsOlder(challenge, cs, n, last);
    }
    if last > n {
      SpentTokenIsDead(challenge, cs, n, last);
      assert !RedeemsFor(challenge, cs, last, t);
    }
    DeadAfterCall(challenge, After(challenge, cs[..last]), cs[last], t);
  }

  /** A refresh token that has been used is refused ever after, exactly when no code is redeemed for it again. */
  lemma SpentTokenRefusedIff(challenge: string -> string, cs: seq<Call>, n: nat)
    requires FreshValues(cs) && Granted(challenge, cs, n) && cs[n].RefreshCall?
    ensures var t := cs[n].refreshForm.refreshToken;
      (forall m :: n < m <= |cs| ==> Refused(After(challenge, cs[..m]), t)) <==>
      (forall i :: n < i < |cs| ==> !RedeemsFor(challenge, cs, i, t))
  {
    var t := cs[n].refreshForm.refreshToken;
    if forall i :: n < i < |cs| ==> !RedeemsFor(challenge, cs, i, t) {
      forall m | n < m <= |cs| ensures Refused(After(challenge, cs[..m]), t) {
        SpentTokenIsDead(challenge, cs, n, m);
        RefusedIff(challenge, cs[..m], t);
      }
    }
    forall i | n < i < |cs| && RedeemsFor(challenge, cs, i, t) ensures !Refused(After(challenge, cs[..i + 1]), t) {
      assert cs[..i + 1][..i] == cs[..i];
      RefusedIff(challenge, cs[..i + 1], t);
    }
  }

  /** A replacement can never come back: only a code's first token can be redeemed for. */
  lemma UsedReplacementStaysRefused(challenge: string -> string, cs: seq<Call>, n: nat, uuid: string)
    requires FreshValues(cs) && Granted(challenge, cs, n) && cs[n].RefreshCall?
    requires cs[n].refreshForm.refreshToken == RotatedToken(uuid)
    ensures Refused(After(challenge, cs), RotatedToken(uuid))
  {
    SpentTokenRefusedIff(challenge, cs, n);
    forall i | n < i < |cs| && cs[i].CodeCall? ensures !RedeemsFor(challenge, cs, i, RotatedToken(uuid)) {
      CodeTokenNotRotated(cs[i].codeForm.code, uuid);
    }
    assert cs[..|cs|] == cs;
  }

  // ------------------------------------------------- the protocol's view

  // The protocol sees of the provider its live tokens and those it has issued.
  ghost predicate Seen(challenge: string -> string, cs: seq<Call>, w: Protocol.World) {
    w.live == After(challenge, cs).refreshTokens && w.issued == Issued(challenge, cs)
  }

  lemma AfterMore(challenge: string -> string, cs: seq<Call>, c: Call)
    ensures After(challenge, cs + [c]) == AfterCall(challenge, After(challenge, cs), c)
    ensures (cs + [c])[..|cs|] == cs
  {
    assert (cs + [c])[..|cs + [c]| - 1] == cs;
  }

  /**
    Redeeming a code is the login of the protocol.  It meets the hypothesis
    that codes are used once exactly when the code was not redeemed before.
   */
  lemma SingleUseCodesIff(challenge: string -> string, cs: seq<Call>, f: CodeForm, cfg: Protocol.Config,
                          w: Protocol.World, e: Protocol.Event)
    requires Seen(challenge, cs, w) && Accepts(challenge, After(challenge, cs), CodeCall(f))
    requires Protocol.Enabled(cfg, w, e) && e.Redeem?
    requires e.session.refreshToken == CodeToken(f.code) && e.grant == GrantOf(After(challenge, cs).codes, f.code)
    ensures Seen(challenge, cs + [CodeCall(f)], Protocol.Next(cfg, w, e))
    ensures Protocol.SingleUseCodes(w, e) <==> !Redeemed(challenge, cs, f.code)
  {
    AfterMore(challenge, cs, CodeCall(f));
    CodeTokenIssuedIff(challenge, cs, f.code);
  }

  /** Refreshing a token is the grant of the protocol, whose answer brings a token never seen before. */
  lemma GrantsAreFresh(challenge: string -> string, cs: seq<Call>, f: RefreshForm, uuid: string, cfg: Protocol.Config,
                       w: Protocol.World, p: nat, r: TokenResponse)
    requires FreshValues(cs + [RefreshCall(f, uuid)]) && Seen(challenge, cs, w)
    requires Accepts(challenge, After(challenge, cs), RefreshCall(f, uuid))
    requires Protocol.At(w, p, Protocol.Granting) && w.procs[p].seen.refreshToken == f.refreshToken
    requires r.refreshToken == RotatedToken(uuid)
    ensures Protocol.FreshResponse(w, r) && Protocol.Enabled(cfg, w, Protocol.Grant(p, r))
    ensures Seen(challenge, cs + [RefreshCall(f, uuid)], Protocol.Next(cfg, w, Protocol.Grant(p, r)))
  {
    var cs' := cs + [RefreshCall(f, uuid)];
    AfterMore(challenge, cs, RefreshCall(f, uuid));
    forall i | 0 <= i < |cs| && cs[i].RefreshCall? ensures cs[i].uuid != uuid {
      assert cs'[i] == cs[i] && cs'[|cs|] == RefreshCall(f, uuid);
    }
    RotatedTokenIsNew(challenge, cs, uuid);
  }
}
