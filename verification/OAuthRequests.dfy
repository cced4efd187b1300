/** One request run alone against scripted replies: what each endpoint's success means, and what rotation conserves. */
module OAuthRequests {
  import opened Basics
  import opened OAuthSteps
  import opened OAuthSafety
  import opened OAuthLive

  /** Awaits left at most. */
  ghost function Rank(p: Proc): nat {
    match p
    case Authenticate(_, _, _) => 4
    case FindToken(_, _) => 3
    case RevokeOld(_, _, _, _) => 2
    case Issue(_, _, _, _) => 1
    case Consume(_, _, _, _) => 2
    case LoadForUpdate(_, _, _) => 2
    case LoadForDelete(_, _) => 3
    case RevokeTokens(_) => 2
    case LoadForRotate(_, _) => 3
    case WriteSecret(_) => 2
    case FindForConsent(_, _, _, _) => 2
    case AuthenticateRevoke(_, _, _) => 3
    case FindRevoked(_, _) => 2
    case _ => 1
  }

  lemma RankFalls(store: Store, pid: nat, p: Proc, reply: Reply)
    ensures Rank(p) > 0
    ensures var o := Step(store, pid, p, reply); o.next.Continue? ==> Rank(o.next.p) < Rank(p)
  {
    hide RevokeTokensOf, RevokeToken, RevokeAppRow;
  }

  datatype Final = Final(store: Store, answer: Answer)

  /** The request from `next` on, when the k-th await gets `replies(k)`; the clock stands still meanwhile. */
  ghost function Finish(store: Store, pid: nat, next: Next, replies: nat -> Reply, k: nat): Final
    decreases if next.Continue? then Rank(next.p) else 0
  {
    match next
    case Return(answer) => Final(store, answer)
    case Continue(p) =>
      RankFalls(store, pid, p, replies(k));
      hide Step, Rank;
      var o := Step(store, pid, p, replies(k));
      Finish(o.store, pid, o.next, replies, k + 1)
  }

  ghost function Perform(store: Store, pid: nat, req: Request, replies: nat -> Reply): Final {
    Finish(store, pid, Start(req), replies, 0)
  }

  /** One await of a request run alone. */
  lemma Advance(store: Store, pid: nat, p: Proc, replies: nat -> Reply, k: nat)
    ensures var o := Step(store, pid, p, replies(k));
            Finish(store, pid, Continue(p), replies, k) ==
            if o.next.Return? then Final(o.store, o.next.answer) else Finish(o.store, pid, o.next, replies, k + 1)
  {
    hide Step;
  }

  lemma Returned(store: Store, pid: nat, answer: Answer, replies: nat -> Reply, k: nat)
    ensures Finish(store, pid, Return(answer), replies, k) == Final(store, answer)
  {
  }

  // --- The tables between requests -----------------------------------------------------

  /** Keys are fresh, tokens agree with their codes and at most one live token descends from each code. */
  ghost predicate Sound(store: Store) {
    Fresh(store) && CodesOk(store.codes, store.apps) && TokensOk(store) && OneLive(store.tokens)
  }

  ghost predicate Poised(store: Store, p: Proc) { ProcOk(store, p) && Ready(store.tokens, p) }

  lemma StepKeepsSound(store: Store, pid: nat, p: Proc, reply: Reply)
    requires Sound(store) && Poised(store, p)
    ensures var o := Step(store, pid, p, reply); Sound(o.store) && (o.next.Continue? ==> Poised(o.store, o.next.p))
  {
    hide Fresh, CodesOk, TokensOk, OneLive, ProcOk, Ready, Step;
    StepFresh(store, pid, p, reply);
    StepKeepsCodes(store, pid, p, reply);
    StepKeepsTokens(store, pid, p, reply);
    NextOk(store, pid, p, reply);
    AloneStep(store, pid, p, reply);
  }

  lemma {:induction false} FinishKeepsSound(store: Store, pid: nat, next: Next, replies: nat -> Reply, k: nat)
    requires Sound(store) && (next.Continue? ==> Poised(store, next.p))
    ensures var f := Finish(store, pid, next, replies, k); Sound(f.store)
    decreases if next.Continue? then Rank(next.p) else 0
  {
    hide Sound, Poised, Step, Rank;
    if next.Continue? {
      RankFalls(store, pid, next.p, replies(k));
      StepKeepsSound(store, pid, next.p, replies(k));
      var o := Step(store, pid, next.p, replies(k));
      FinishKeepsSound(o.store, pid, o.next, replies, k + 1);
    }
  }

  /** Every request, wherever it stops, leaves the tables sound. */
  lemma PerformKeepsSound(store: Store, pid: nat, req: Request, replies: nat -> Reply)
    requires Sound(store)
    ensures Sound(Perform(store, pid, req, replies).store)
  {
    hide Sound, Finish, Start;
    StartOk(store, req);
    StartReady(store.tokens, req);
    FinishKeepsSound(store, pid, Start(req), replies, 0);
  }

  // --- What success means ----------------------------------------------------------------

  /** On the way to success every await goes through, and the request continues or ends in success. */
  lemma Onwards(store: Store, pid: nat, p: Proc, replies: nat -> Reply, k: nat) returns (o: Outcome)
    requires Finish(store, pid, Continue(p), replies, k).answer == Success
    ensures o == Step(store, pid, p, replies(k)) && replies(k) == Done
    ensures o.next.Continue? || o.next == Return(Success)
    ensures Finish(store, pid, Continue(p), replies, k) == Finish(o.store, pid, o.next, replies, k + 1)
    ensures o.next.Return? ==> Finish(store, pid, Continue(p), replies, k) == Final(o.store, Success)
  {
    hide Finish, Authenticated, Consent, MayRevoke, Rotatable, Exchange, OwnedThen, RevokeToken, RevokeTokensOf;
    hide RevokeAppRow, ConsumeCode;
    o := Step(store, pid, p, replies(k));
    Advance(store, pid, p, replies, k);
    if o.next.Return? { Returned(o.store, pid, o.next.answer, replies, k + 1); }
  }

  ghost predicate RotatedInto(store: Store, pid: nat, token: Id, f: Final) {
    && token in store.tokens && !store.tokens[token].revoked
    && var row := store.tokens[token];
       f.store == store.(
         tokens := store.tokens[token := row.(revoked := true)]
                               [store.issued := Token(row.app, row.user, false, row.code, Rotated(token), pid)],
         issued := store.issued + 1)
  }

  /**
   * A successful refresh comes from the token's own live app; it revokes exactly the presented token and stores exactly
   * one, with the same app, user and code.
   */
  lemma RefreshSucceeds(store: Store, pid: nat, req: Request, replies: nat -> Reply)
    requires req.Refresh? && Perform(store, pid, req, replies).answer == Success
    ensures req.token.Some? && RotatedInto(store, pid, req.token.value, Perform(store, pid, req, replies))
    ensures Authentic(store, req.client, req.secret, store.tokens[req.token.value].app)
  {
    hide Finish, RevokeTokensOf, RevokeAppRow;
    var o := Onwards(store, pid, Start(req).p, replies, 0);
    o := Onwards(store, pid, o.next.p, replies, 1);
    o := Onwards(store, pid, o.next.p, replies, 2);
    o := Onwards(o.store, pid, o.next.p, replies, 3);
  }

  /** Rotating leaves the number of live tokens of every code as it was. */
  lemma RotationKeepsCount(store: Store, pid: nat, token: Id, f: Final, code: Id)
    requires Below(store.tokens, store.issued) && RotatedInto(store, pid, token, f)
    ensures |Live(f.store.tokens, code)| == |Live(store.tokens, code)|
  {
    var row := store.tokens[token];
    SwapKeepsCount(store.tokens, token, store.issued, Token(row.app, row.user, false, row.code, Rotated(token), pid), code);
  }

  lemma RevokingLowersCount(store: Store, pid: nat, p: Proc, reply: Reply, code: Id)
    requires Fresh(store) && !p.Issue?
    ensures Live(Step(store, pid, p, reply).store.tokens, code) <= Live(store.tokens, code)
  {
    hide Step, Fresh, Extends;
    var o := Step(store, pid, p, reply);
    StepExtends(store, pid, p, reply);
    ExtendsTokens(store, o.store);
    assert forall t :: t in o.store.tokens && !o.store.tokens[t].revoked ==> !store.tokens[t].revoked;
  }

  /** The request is rotating and has not revoked its token yet. */
  ghost predicate Rotating(p: Proc) { p.FindToken? || p.RevokeOld? || (p.Authenticate? && p.grant.ByToken?) }

  lemma RotatingGoesOn(store: Store, pid: nat, p: Proc, reply: Reply)
    requires Fresh(store) && Rotating(p)
    ensures var o := Step(store, pid, p, reply);
            && (!p.RevokeOld? ==> o.store == store && (o.next.Continue? ==> Rotating(o.next.p)))
            && (p.RevokeOld? && o.next.Continue? ==> reply == Done && o.next.p == Issue(p.app, p.user, p.code, Rotated(p.token)))
            && (p.RevokeOld? && reply != Fail(false) ==> o.store == store.(tokens := RevokeToken(store.tokens, p.token)))
  {
    hide RevokeTokensOf, RevokeAppRow, RevokeToken;
  }

  /** A refresh, whether it succeeds, is rejected, or stops at any await, never raises the live count of any code. */
  lemma {:induction false} RefreshNeverRaises(store: Store, pid: nat, p: Proc, replies: nat -> Reply, k: nat, code: Id)
    requires Sound(store) && Poised(store, p) && Rotating(p)
    ensures |Live(Finish(store, pid, Continue(p), replies, k).store.tokens, code)| <= |Live(store.tokens, code)|
    decreases Rank(p)
  {
    hide Finish, Step, Rank, Live, Fresh, OneLive, TokensOk, CodesOk;
    var o := Step(store, pid, p, replies(k));
    Advance(store, pid, p, replies, k);
    RotatingGoesOn(store, pid, p, replies(k));
    StepKeepsSound(store, pid, p, replies(k));
    RankFalls(store, pid, p, replies(k));
    RevokingLowersCount(store, pid, p, replies(k), code);
    Subset(Live(o.store.tokens, code), Live(store.tokens, code));
    if o.next.Continue? {
      if p.RevokeOld? {
        Advance(o.store, pid, o.next.p, replies, k + 1);
        SuccessorCount(store, pid, p, replies(k + 1), code) by { SoundBelow(store); }
        var o2 := Step(o.store, pid, o.next.p, replies(k + 1));
      } else {
        RefreshNeverRaises(store, pid, o.next.p, replies, k + 1, code);
      }
    }
  }

  lemma SoundBelow(store: Store)
    requires Sound(store)
    ensures Below(store.tokens, store.issued)
  {
  }

  /** Revoking the token, then storing its successor or failing to. */
  lemma SuccessorCount(store: Store, pid: nat, p: Proc, reply: Reply, code: Id)
    requires Below(store.tokens, store.issued) && Ready(store.tokens, p) && p.RevokeOld?
    ensures var revoked := store.(tokens := RevokeToken(store.tokens, p.token));
            var o := Step(revoked, pid, Issue(p.app, p.user, p.code, Rotated(p.token)), reply);
            o.next.Return? && |Live(o.store.tokens, code)| <= |Live(store.tokens, code)|
  {
    hide Live, RevokeToken, RevokeTokensOf, RevokeAppRow;
    hide Authenticated, Consent, MayRevoke, Rotatable, Exchange, OwnedThen, ConsumeCode;
    SwapKeepsCount(store.tokens, p.token, store.issued, Token(p.app, p.user, false, p.code, Rotated(p.token), pid), code);
  }

  lemma SwapKeepsCount(tokens: Tokens, token: Id, id: Id, successor: Token, code: Id)
    requires token in tokens && !tokens[token].revoked && id !in tokens && successor.code == tokens[token].code && !successor.revoked
    ensures |Live(RevokeToken(tokens, token)[id := successor], code)| == |Live(tokens, code)|
    ensures |Live(RevokeToken(tokens, token), code)| <= |Live(tokens, code)|
  {
    hide Live, RevokeToken;
    LiveAfterRevoke(tokens, token, code);
    LiveAfterInsert(RevokeToken(tokens, token), id, successor, code) by { RevokeTokenKeeps(tokens, token); }
    LiveIsKept(tokens, token, id, code);
  }

  lemma LiveAfterRevoke(tokens: Tokens, token: Id, code: Id)
    ensures Live(RevokeToken(tokens, token), code) == Live(tokens, code) - {token}
  {
  }

  lemma LiveAfterInsert(tokens: Tokens, id: Id, t: Token, code: Id)
    requires id !in tokens && !t.revoked
    ensures Live(tokens[id := t], code) == if t.code == code then Live(tokens, code) + {id} else Live(tokens, code)
  {
  }

  lemma LiveIsKept(tokens: Tokens, token: Id, id: Id, code: Id)
    requires token in tokens && !tokens[token].revoked && id !in tokens
    ensures id !in Live(tokens, code) && (token in Live(tokens, code) <==> tokens[token].code == code)
  {
  }

  lemma RotationNeverRaises(store: Store, pid: nat, req: Request, replies: nat -> Reply, code: Id)
    requires Sound(store) && req.Refresh?
    ensures |Live(Perform(store, pid, req, replies).store.tokens, code)| <= |Live(store.tokens, code)|
  {
    hide Sound, Finish, Live;
    StartOk(store, req);
    StartReady(store.tokens, req);
    RefreshNeverRaises(store, pid, Start(req).p, replies, 0, code);
  }

  /** A rotated token presented again is refused and changes nothing. */
  lemma ReplayIsRefused(store: Store, pid: nat, req: Request, replies: nat -> Reply, again: nat, later: nat -> Reply)
    requires Fresh(store) && req.Refresh? && Perform(store, pid, req, replies).answer == Success
    ensures var after := Perform(store, pid, req, replies).store;
            var f := Perform(after, again, req, later); f.store == after && f.answer in {Unauthorized, Internal}
  {
    hide Perform, FreshApps;
    RefreshSucceeds(store, pid, req, replies);
    var after := Perform(store, pid, req, replies).store;
    assert req.token.value in after.tokens && after.tokens[req.token.value].revoked;
    RevokedIsRefused(after, again, req, later);
  }

  lemma RevokedIsRefused(store: Store, pid: nat, req: Request, replies: nat -> Reply)
    requires req.Refresh? && req.token.Some? && (req.token.value in store.tokens ==> store.tokens[req.token.value].revoked)
    ensures var f := Perform(store, pid, req, replies); f.store == store && f.answer in {Unauthorized, Internal}
  {
    hide Finish;
    Advance(store, pid, Start(req).p, replies, 0);
    var o := Step(store, pid, Start(req).p, replies(0));
    if o.next.Continue? { Advance(store, pid, o.next.p, replies, 1); }
  }

  ghost predicate ExchangedFor(store: Store, pid: nat, req: Request, code: Id, f: Final)
    requires req.ExchangeCode?
  {
    && code in store.codes && !store.codes[code].used && store.clock < store.codes[code].expires
    && req.uri == Some(store.codes[code].uri) && Authentic(store, req.client, req.secret, store.codes[code].app)
    && var row := store.codes[code];
       f.store == store.(
         codes := store.codes[code := row.(used := true)],
         tokens := store.tokens[store.issued := Token(row.app, row.user, false, code, Exchanged(req.client, row.uri), pid)],
         issued := store.issued + 1)
  }

  /** A successful exchange spends an unused, unexpired code of this app and redirect URI for exactly one token. */
  lemma ExchangeSucceeds(store: Store, pid: nat, req: Request, replies: nat -> Reply)
    requires req.ExchangeCode? && Perform(store, pid, req, replies).answer == Success
    ensures req.code.Some? && ExchangedFor(store, pid, req, req.code.value, Perform(store, pid, req, replies))
  {
    hide Finish, RevokeTokensOf, RevokeAppRow, RevokeToken;
    var o := Onwards(store, pid, Start(req).p, replies, 0);
    o := Onwards(store, pid, o.next.p, replies, 1);
    o := Onwards(o.store, pid, o.next.p, replies, 2);
  }

  /** Revocation answers success also for foreign, unknown and revoked tokens, and then changes nothing. */
  lemma RevokeSucceeds(store: Store, pid: nat, req: Request, replies: nat -> Reply)
    requires req.Revoke? && Perform(store, pid, req, replies).answer == Success
    ensures var f := Perform(store, pid, req, replies);
            var found := FindClient(store.apps, req.client);
            && found.Some? && store.apps[found.value].secret == req.secret
            && f.store == if req.target in store.tokens && store.tokens[req.target].app == found.value
                          then store.(tokens := store.tokens[req.target := store.tokens[req.target].(revoked := true)]) else store
  {
    hide Finish, RevokeTokensOf, RevokeAppRow;
    var found := FindClient(store.apps, req.client);
    var o := Onwards(store, pid, Start(req).p, replies, 0);
    o := Onwards(store, pid, o.next.p, replies, 1);
    if o.next.Continue? {
      o := Onwards(store, pid, o.next.p, replies, 2);
    } else if req.target in store.tokens && store.tokens[req.target].app == found.value {
      assert store.tokens[req.target := store.tokens[req.target].(revoked := true)] == store.tokens;
    }
  }

  /** Exactly the tokens of the app are revoked. */
  ghost predicate AllRevoked(tokens: Tokens, after: Tokens, app: Id) {
    && after.Keys == tokens.Keys
    && forall t :: t in tokens ==> after[t] == if tokens[t].app == app then tokens[t].(revoked := true) else tokens[t]
  }

  /** Rotating the secret of a live app gives it a secret never used before and revokes exactly its tokens. */
  lemma RotateSecretSucceeds(store: Store, pid: nat, req: Request, replies: nat -> Reply)
    requires req.RotateSecret? && Perform(store, pid, req, replies).answer == Success
    ensures var f := Perform(store, pid, req, replies); var app := req.app;
            && app in store.apps && store.apps[app].owner == req.actor
            && AllRevoked(store.tokens, f.store.tokens, app)
            && f.store.codes == store.codes && f.store.issued == store.issued + 1
            && f.store.apps == if store.apps[app].revoked then store.apps
                               else store.apps[app := store.apps[app].(secret := store.issued)]
  {
    hide Finish, RevokeAppRow;
    var o := Onwards(store, pid, Start(req).p, replies, 0);
    o := Onwards(store, pid, o.next.p, replies, 1);
    o := Onwards(o.store, pid, o.next.p, replies, 2);
  }

  /** Deleting an app revokes exactly its tokens and marks exactly its row. */
  lemma DeleteAppSucceeds(store: Store, pid: nat, req: Request, replies: nat -> Reply)
    requires req.DeleteApp? && Perform(store, pid, req, replies).answer == Success
    ensures var f := Perform(store, pid, req, replies); var app := req.app;
            && app in store.apps && store.apps[app].owner == req.actor
            && AllRevoked(store.tokens, f.store.tokens, app)
            && f.store == store.(apps := store.apps[app := store.apps[app].(revoked := true)], tokens := f.store.tokens)
  {
    hide Finish;
    var o := Onwards(store, pid, Start(req).p, replies, 0);
    o := Onwards(store, pid, o.next.p, replies, 1);
    o := Onwards(o.store, pid, o.next.p, replies, 2);
  }

  /** A deleted app no longer authenticates: its token requests are refused and change nothing. */
  lemma DeletedAppIsRefused(store: Store, pid: nat, req: Request, replies: nat -> Reply, app: Id)
    requires Fresh(store) && app in store.apps && store.apps[app].revoked
    requires (req.Refresh? || req.ExchangeCode? || req.OtherGrant?) && req.client == store.apps[app].client
    ensures var f := Perform(store, pid, req, replies); f.store == store && f.answer in {Unauthorized, Internal}
  {
    hide Finish;
    assert FindClient(store.apps, req.client) == Some(app);
    Advance(store, pid, Start(req).p, replies, 0);
  }
}
