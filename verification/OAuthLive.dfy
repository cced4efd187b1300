/** Live tokens of a code, and what a request run alone does to them. */
module OAuthLive {
  import opened Basics
  import opened OAuthSteps
  import opened OAuthSafety

  /** Unrevoked tokens descending from a code. */
  ghost function Live(tokens: Tokens, code: Id): set<Id> {
    set t | t in tokens && tokens[t].code == code && !tokens[t].revoked
  }

  /** No two unrevoked tokens descend from one code. */
  ghost predicate OneLive(tokens: Tokens) {
    forall s, t :: s in tokens && t in tokens && !tokens[s].revoked && !tokens[t].revoked && tokens[s].code == tokens[t].code ==>
      s == t
  }

  /** A request about to store a token finds no unrevoked one from the same code; one about to rotate holds the only one. */
  ghost predicate Ready(tokens: Tokens, p: Proc) {
    match p
    case RevokeOld(_, token, _, code) => token in tokens && !tokens[token].revoked && tokens[token].code == code
    case Issue(_, _, code, _) => Live(tokens, code) == {}
    case _ => true
  }

  lemma RevokingKeepsOneLive(tokens: Tokens, after: Tokens)
    requires OneLive(tokens) && TokensExtend(tokens, after) && after.Keys == tokens.Keys
    ensures OneLive(after) && forall code :: Live(after, code) <= Live(tokens, code)
  {
  }

  lemma IssueKeepsOneLive(tokens: Tokens, id: Id, t: Token)
    requires OneLive(tokens) && Live(tokens, t.code) == {}
    ensures OneLive(tokens[id := t])
  {
    assert forall s :: s in tokens && tokens[s].code == t.code && !tokens[s].revoked ==> s in Live(tokens, t.code);
  }

  /** A code still marked unused has no tokens at all. */
  lemma UnusedCodeHasNoTokens(store: Store, code: Id)
    requires TokensOk(store) && code in store.codes && !store.codes[code].used
    ensures Live(store.tokens, code) == {}
  {
    forall t | t in store.tokens
      ensures store.tokens[t].code != code
    {
      assert TokenOk(store, store.tokens[t]);
    }
  }

  lemma AloneStep(store: Store, pid: nat, p: Proc, reply: Reply)
    requires Fresh(store) && TokensOk(store) && OneLive(store.tokens) && Ready(store.tokens, p)
    ensures var o := Step(store, pid, p, reply);
            OneLive(o.store.tokens) && (o.next.Continue? ==> Ready(o.store.tokens, o.next.p))
  {
    hide OneLive, Live, Fresh, Extends, TokensOk, Authenticated, Consent, MayRevoke, Rotatable, RevokeTokensOf;
    hide RevokeToken, RevokeAppRow;
    var o := Step(store, pid, p, reply);
    StepExtends(store, pid, p, reply);
    ExtendsTokens(store, o.store);
    if p.Issue? && reply != Fail(false) {
      IssueKeepsOneLive(store.tokens, store.issued, Token(p.app, p.user, false, p.code, p.origin, pid));
    } else if p.Issue? {
    } else {
      RevokingKeepsOneLive(store.tokens, o.store.tokens);
    }
    if o.next.Continue? { AloneNext(store, pid, p, reply); }
  }

  lemma AloneNext(store: Store, pid: nat, p: Proc, reply: Reply)
    requires TokensOk(store) && OneLive(store.tokens) && Ready(store.tokens, p) && Step(store, pid, p, reply).next.Continue?
    ensures var o := Step(store, pid, p, reply); Ready(o.store.tokens, o.next.p)
  {
    hide OneLive, Live, TokensOk, Authenticated, Consent, MayRevoke, RevokeTokensOf, RevokeToken, RevokeAppRow;
    var o := Step(store, pid, p, reply);
    match p
    case Consume(_, _, code, _) =>
      if code in store.codes && !store.codes[code].used { UnusedCodeHasNoTokens(store, code); }
    case RevokeOld(_, token, _, code) => RotatedLeavesNone(store.tokens, token, code);
    case FindToken(_, _) =>
    case Authenticate(_, _, grant) => AuthenticatedReady(store, p);
    case FindForConsent(_, _, _, _) => ConsentReady(store, p);
    case AuthenticateRevoke(_, _, _) => MayRevokeReady(store, p);
    case _ =>
  }

  lemma AuthenticatedReady(store: Store, p: Proc)
    requires p.Authenticate?
    ensures var next := Authenticated(store, p.client, p.secret, p.grant); next.Continue? ==> next.p.Consume? || next.p.FindToken?
  {
  }

  lemma ConsentReady(store: Store, p: Proc)
    requires p.FindForConsent?
    ensures var next := Consent(store, p.client, p.uri, p.approved, p.user); next.Continue? ==> next.p.InsertCode?
  {
  }

  lemma MayRevokeReady(store: Store, p: Proc)
    requires p.AuthenticateRevoke?
    ensures var next := MayRevoke(store, p.client, p.secret, p.token); next.Continue? ==> next.p.FindRevoked?
  {
  }

  /** Revoking the only unrevoked token of a code leaves none. */
  lemma RotatedLeavesNone(tokens: Tokens, token: Id, code: Id)
    requires OneLive(tokens) && token in tokens && !tokens[token].revoked && tokens[token].code == code
    ensures Live(RevokeToken(tokens, token), code) == {}
  {
  }

  lemma StartReady(tokens: Tokens, req: Request)
    ensures Start(req).Continue? ==> Ready(tokens, Start(req).p)
  {
  }

  /** A client's app, found by id and secret and not revoked. */
  ghost predicate Authentic(store: Store, client: Id, secret: Id, app: Id) {
    app in store.apps && store.apps[app].client == client && store.apps[app].secret == secret && !store.apps[app].revoked
  }
}
