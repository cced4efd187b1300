/** Every endpoint's answer and effect, and where authorization codes may go. */
module OAuthAnswers {
  import opened Basics
  import opened OAuthSteps
  import opened OAuthSafety
  import opened OAuthLive
  import opened OAuthRequests

  const ALL_DONE: nat -> Reply := (k: nat) => Done

  /**
   * An await that failed without effect changes nothing, one that failed after taking effect leaves what success leaves; both
   * end the request with an internal error.
   */
  lemma FailureLaw(store: Store, pid: nat, p: Proc, acted: bool)
    ensures var o := Step(store, pid, p, Fail(acted));
            o.next == Return(Internal) && o.store == if acted then Step(store, pid, p, Done).store else store
  {
    hide RevokeTokensOf, RevokeToken, RevokeAppRow, Authenticated, Consent, MayRevoke, Rotatable, Exchange, OwnedThen;
  }

  /** An answer other than an internal error says that every await went through. */
  lemma {:induction false} DoneUnlessInternal(store: Store, pid: nat, next: Next, replies: nat -> Reply, k: nat)
    requires Finish(store, pid, next, replies, k).answer != Internal
    ensures Finish(store, pid, next, replies, k) == Finish(store, pid, next, ALL_DONE, k)
    decreases if next.Continue? then Rank(next.p) else 0
  {
    hide Step, Rank, Finish;
    match next
    case Return(answer) =>
      Returned(store, pid, answer, replies, k);
      Returned(store, pid, answer, ALL_DONE, k);
    case Continue(p) =>
      Advance(store, pid, p, replies, k);
      Advance(store, pid, p, ALL_DONE, k);
      RankFalls(store, pid, p, Done);
      if replies(k).Fail? {
        FailureLaw(store, pid, p, replies(k).acted);
      } else {
        var o := Step(store, pid, p, Done);
        if o.next.Continue? { DoneUnlessInternal(o.store, pid, o.next, replies, k + 1); }
      }
  }

  // --- Management ---------------------------------------------------------------------------

  ghost function Answered(store: Store, pid: nat, req: Request): Final { Perform(store, pid, req, ALL_DONE) }

  /** Any other script either fails internally or gives the same. */
  lemma AnsweredUnlessInternal(store: Store, pid: nat, req: Request, replies: nat -> Reply)
    ensures Perform(store, pid, req, replies).answer != Internal ==> Perform(store, pid, req, replies) == Answered(store, pid, req)
  {
    if Perform(store, pid, req, replies).answer != Internal { DoneUnlessInternal(store, pid, Start(req), replies, 0); }
  }

  lemma CreateAppAnswer(store: Store, pid: nat, owner: Id, nameOk: bool, profile: Profile)
    ensures Answered(store, pid, CreateApp(owner, nameOk, profile)) ==
            if !nameOk || profile.uris == {} then Final(store, Validation)
            else Final(store.(apps := store.apps[store.issued := App(store.issued + 1, owner, store.issued + 2, profile, false)],
                              issued := store.issued + 3), Success)
  {
    hide Finish;
    if nameOk && profile.uris != {} {
      Advance(store, pid, InsertApp(owner, profile), ALL_DONE, 0);
    } else {
      Returned(store, pid, Validation, ALL_DONE, 0);
    }
  }

  /** Only its owner changes an app's profile, and only while the app is live; to others the app does not exist. */
  lemma UpdateAppAnswer(store: Store, pid: nat, actor: Id, app: Id, nameOk: bool, profile: Profile)
    ensures Answered(store, pid, UpdateApp(actor, app, nameOk, profile)) ==
            if !nameOk || profile.uris == {} then Final(store, Validation)
            else if app !in store.apps || store.apps[app].owner != actor then Final(store, NotFound)
            else if store.apps[app].revoked then Final(store, Success)
            else Final(store.(apps := store.apps[app := store.apps[app].(profile := profile)]), Success)
  {
    hide Finish;
    if nameOk && profile.uris != {} {
      Advance(store, pid, LoadForUpdate(actor, app, profile), ALL_DONE, 0);
      Advance(store, pid, WriteProfile(app, profile), ALL_DONE, 1);
    } else {
      Returned(store, pid, Validation, ALL_DONE, 0);
    }
  }

  /** Only its owner deletes an app; its tokens are revoked with it. */
  lemma DeleteAppAnswer(store: Store, pid: nat, actor: Id, app: Id)
    ensures var f := Answered(store, pid, DeleteApp(actor, app));
            if app !in store.apps || store.apps[app].owner != actor then f == Final(store, NotFound)
            else
              && f.answer == Success && AllRevoked(store.tokens, f.store.tokens, app)
              && f.store == store.(apps := store.apps[app := store.apps[app].(revoked := true)], tokens := f.store.tokens)
  {
    hide Finish;
    Advance(store, pid, LoadForDelete(actor, app), ALL_DONE, 0);
    if app in store.apps && store.apps[app].owner == actor {
      var revoked := store.(tokens := RevokeTokensOf(store.tokens, app));
      Advance(store, pid, RevokeTokens(app), ALL_DONE, 1);
      Advance(revoked, pid, RevokeApp(app), ALL_DONE, 2);
    }
  }

  /** Only its owner gives an app a new secret; its tokens are revoked, and a revoked app keeps its old one. */
  lemma RotateSecretAnswer(store: Store, pid: nat, actor: Id, app: Id)
    ensures var f := Answered(store, pid, RotateSecret(actor, app));
            if app !in store.apps || store.apps[app].owner != actor then f == Final(store, NotFound)
            else
              && f.answer == Success && AllRevoked(store.tokens, f.store.tokens, app)
              && f.store == store.(
                   apps := if store.apps[app].revoked then store.apps else store.apps[app := store.apps[app].(secret := store.issued)],
                   tokens := f.store.tokens, issued := store.issued + 1)
  {
    hide Finish;
    Advance(store, pid, LoadForRotate(actor, app), ALL_DONE, 0);
    if app in store.apps && store.apps[app].owner == actor {
      var o := Step(store, pid, WriteSecret(app), Done);
      Advance(store, pid, WriteSecret(app), ALL_DONE, 1);
      Advance(o.store, pid, RevokeAll(app), ALL_DONE, 2);
    }
  }

  // --- Consent --------------------------------------------------------------------------------

  /** The app registered under a client id. */
  ghost predicate Registered(apps: Apps, client: Id, app: Id) { app in apps && apps[app].client == client }

  ghost predicate NobodyIs(apps: Apps, client: Id) { forall app :: app in apps ==> apps[app].client != client }

  lemma FindsRegistered(store: Store, client: Id, app: Id)
    requires Fresh(store) && Registered(store.apps, client, app)
    ensures FindClient(store.apps, client) == Some(app)
  {
  }

  /** Consent for a live app stores exactly one code, bound to app, user and a registered URI, for ten minutes. */
  lemma AuthorizeAnswer(store: Store, pid: nat, client: Id, uri: string, approved: bool, user: Id, app: Id)
    requires Fresh(store) && Registered(store.apps, client, app)
    ensures Answered(store, pid, Authorize(client, uri, approved, user)) ==
            if store.apps[app].revoked then Final(store, NotFound)
            else if uri !in store.apps[app].profile.uris then Final(store, Validation)
            else if !approved then Final(store, Denied)
            else Final(store.(codes := store.codes[store.issued := Code(app, user, uri, store.clock + 600, false)],
                              issued := store.issued + 1), Success)
  {
    hide Finish, Fresh;
    FindsRegistered(store, client, app);
    Advance(store, pid, FindForConsent(client, uri, approved, user), ALL_DONE, 0);
    Advance(store, pid, InsertCode(app, user, uri), ALL_DONE, 1);
  }

  lemma AuthorizeUnknown(store: Store, pid: nat, client: Id, uri: string, approved: bool, user: Id)
    requires NobodyIs(store.apps, client)
    ensures Answered(store, pid, Authorize(client, uri, approved, user)) == Final(store, NotFound)
  {
    hide Finish;
    Advance(store, pid, FindForConsent(client, uri, approved, user), ALL_DONE, 0);
  }

  /**
   * Whatever the replies, a successful authorization was approved, for a live app with that client id and this very
   * redirect URI registered, and stores exactly one unused code for it; any other answer than an internal error changes
   * nothing.
   */
  lemma AuthorizeSucceeds(store: Store, pid: nat, client: Id, uri: string, approved: bool, user: Id, replies: nat -> Reply)
    requires Fresh(store)
    ensures var f := Perform(store, pid, Authorize(client, uri, approved, user), replies);
            && (f.answer != Success && f.answer != Internal ==> f.store == store)
            && (f.answer == Success ==>
                  approved && exists app ::
                    && Registered(store.apps, client, app) && !store.apps[app].revoked && uri in store.apps[app].profile.uris
                    && f.store == store.(codes := store.codes[store.issued := Code(app, user, uri, store.clock + 600, false)],
                                         issued := store.issued + 1))
  {
    hide Finish, Fresh;
    AnsweredUnlessInternal(store, pid, Authorize(client, uri, approved, user), replies);
    if app :| Registered(store.apps, client, app) {
      AuthorizeAnswer(store, pid, client, uri, approved, user, app);
    } else {
      assert forall app :: app in store.apps ==> !Registered(store.apps, client, app);
      AuthorizeUnknown(store, pid, client, uri, approved, user);
    }
  }

  // --- Tokens ----------------------------------------------------------------------------------

  ghost predicate NobodyAuthentic(store: Store, client: Id, secret: Id) { forall app :: !Authentic(store, client, secret, app) }

  /** Without a live app of that client id and secret every token request is refused. */
  lemma StrangersAreRefused(store: Store, pid: nat, req: Request)
    requires req.ExchangeCode? || req.Refresh? || req.OtherGrant?
    requires NobodyAuthentic(store, req.client, req.secret)
    ensures Answered(store, pid, req) == Final(store, Unauthorized)
  {
    hide Finish;
    Advance(store, pid, Start(req).p, ALL_DONE, 0);
    var found := FindClient(store.apps, req.client);
    if found.Some? { assert !Authentic(store, req.client, req.secret, found.value); }
  }

  ghost function Spent(store: Store, code: Id): Store
    requires code in store.codes
  {
    store.(codes := store.codes[code := store.codes[code].(used := true)])
  }

  ghost function WithToken(store: Store, token: Token): Store {
    store.(tokens := store.tokens[store.issued := token], issued := store.issued + 1)
  }

  /** A code found unused and unexpired is spent even when it then turns out to be another app's or for another URI. */
  lemma ExchangeAnswer(store: Store, pid: nat, client: Id, secret: Id, code: Option<Id>, uri: Option<string>, app: Id)
    requires Fresh(store) && Authentic(store, client, secret, app)
    ensures Answered(store, pid, ExchangeCode(client, secret, code, uri)) ==
            if code.None? || uri.None? || code.value !in store.codes || store.codes[code.value].used
               || store.codes[code.value].expires <= store.clock then Final(store, Validation)
            else
              var row, spent := store.codes[code.value], Spent(store, code.value);
              if row.app != app then Final(spent, Unauthorized)
              else if row.uri != uri.value then Final(spent, Validation)
              else Final(WithToken(spent, Token(app, row.user, false, code.value, Exchanged(client, row.uri), pid)), Success)
  {
    hide Finish, Fresh;
    FindsRegistered(store, client, app);
    Advance(store, pid, Authenticate(client, secret, ByCode(code, uri)), ALL_DONE, 0);
    if code.Some? && uri.Some? {
      Advance(store, pid, Consume(client, app, code.value, uri.value), ALL_DONE, 1);
      if code.value in store.codes {
        var row := store.codes[code.value];
        Advance(Spent(store, code.value), pid, Issue(app, row.user, code.value, Exchanged(client, uri.value)), ALL_DONE, 2);
      }
    }
  }

  lemma RefreshAnswer(store: Store, pid: nat, client: Id, secret: Id, token: Option<Id>, app: Id)
    requires Fresh(store) && Authentic(store, client, secret, app)
    ensures Answered(store, pid, Refresh(client, secret, token)) ==
            if token.None? then Final(store, Validation)
            else if token.value !in store.tokens || store.tokens[token.value].revoked || store.tokens[token.value].app != app
            then Final(store, Unauthorized)
            else
              var row := store.tokens[token.value];
              var revoked := store.(tokens := store.tokens[token.value := row.(revoked := true)]);
              Final(WithToken(revoked, Token(app, row.user, false, row.code, Rotated(token.value), pid)), Success)
  {
    hide Finish, Fresh;
    FindsRegistered(store, client, app);
    Advance(store, pid, Authenticate(client, secret, ByToken(token)), ALL_DONE, 0);
    if token.Some? {
      Advance(store, pid, FindToken(app, token.value), ALL_DONE, 1);
      if token.value in store.tokens && !store.tokens[token.value].revoked && store.tokens[token.value].app == app {
        var row := store.tokens[token.value];
        var revoked := store.(tokens := store.tokens[token.value := row.(revoked := true)]);
        Advance(store, pid, RevokeOld(app, token.value, row.user, row.code), ALL_DONE, 2);
        Advance(revoked, pid, Issue(app, row.user, row.code, Rotated(token.value)), ALL_DONE, 3);
      }
    }
  }

  lemma OtherGrantAnswer(store: Store, pid: nat, client: Id, secret: Id, app: Id)
    requires Fresh(store) && Authentic(store, client, secret, app)
    ensures Answered(store, pid, OtherGrant(client, secret)) == Final(store, Validation)
  {
    hide Finish, Fresh;
    FindsRegistered(store, client, app);
    Advance(store, pid, Authenticate(client, secret, Unsupported), ALL_DONE, 0);
  }

  /** A revocation of whatever token is answered with success; it revokes a token of the client's own app only. */
  lemma RevokeAnswer(store: Store, pid: nat, client: Id, secret: Id, target: Id, app: Id)
    requires Fresh(store) && Registered(store.apps, client, app)
    ensures Answered(store, pid, Revoke(client, secret, target)) ==
            if store.apps[app].secret != secret then Final(store, Unauthorized)
            else if target in store.tokens && store.tokens[target].app == app
            then Final(store.(tokens := store.tokens[target := store.tokens[target].(revoked := true)]), Success)
            else Final(store, Success)
  {
    hide Finish, Fresh;
    FindsRegistered(store, client, app);
    Advance(store, pid, AuthenticateRevoke(client, secret, target), ALL_DONE, 0);
    Advance(store, pid, FindRevoked(app, target), ALL_DONE, 1);
    Advance(store, pid, RevokeIt(target), ALL_DONE, 2);
    if target in store.tokens && store.tokens[target].revoked {
      assert store.tokens[target := store.tokens[target].(revoked := true)] == store.tokens;
    }
  }

  lemma RevokeUnknown(store: Store, pid: nat, client: Id, secret: Id, target: Id)
    requires NobodyIs(store.apps, client)
    ensures Answered(store, pid, Revoke(client, secret, target)) == Final(store, Unauthorized)
  {
    hide Finish;
    Advance(store, pid, AuthenticateRevoke(client, secret, target), ALL_DONE, 0);
  }

  // --- Where codes may go, in every interleaving ---------------------------------------------------

  /** At event j a consent request found the app live, under its client id, with this redirect URI registered. */
  ghost predicate ConsentedAt(es: seq<Event>, j: nat, app: Id, user: Id, uri: string) {
    && j < |es| && es[j].Act?
    && var w := Run(INIT, es[..j]);
       && es[j].pid in w.procs && w.procs[es[j].pid].FindForConsent?
       && var p := w.procs[es[j].pid];
          && p.approved && p.user == user && p.uri == uri
          && Registered(w.store.apps, p.client, app) && !w.store.apps[app].revoked && uri in w.store.apps[app].profile.uris
  }

  ghost predicate Consented(es: seq<Event>, app: Id, user: Id, uri: string) { exists j: nat :: ConsentedAt(es, j, app, user, uri) }

  lemma ConsentStays(es: seq<Event>, e: Event, app: Id, user: Id, uri: string)
    requires Consented(es, app, user, uri)
    ensures Consented(es + [e], app, user, uri)
  {
    hide Run;
    var j: nat :| ConsentedAt(es, j, app, user, uri);
    assert (es + [e])[..j] == es[..j] && (es + [e])[j] == es[j];
    assert ConsentedAt(es + [e], j, app, user, uri);
  }

  /** Codes come from requests at their insert, and requests get there by consent. */
  lemma StepMakesCodes(store: Store, pid: nat, p: Proc, reply: Reply)
    ensures var o := Step(store, pid, p, reply);
            && (forall c :: c in o.store.codes && !(c in store.codes && store.codes[c].(used := true) == o.store.codes[c].(used := true)) ==>
                  p.InsertCode? && o.store.codes[c] == Code(p.app, p.user, p.uri, store.clock + 600, false))
            && (o.next.Continue? && o.next.p.InsertCode? ==>
                  && p.FindForConsent? && p.approved && p.user == o.next.p.user && p.uri == o.next.p.uri
                  && Registered(store.apps, p.client, o.next.p.app) && !store.apps[o.next.p.app].revoked
                  && p.uri in store.apps[o.next.p.app].profile.uris)
  {
    hide RevokeTokensOf, RevokeToken, RevokeAppRow;
  }

  ghost predicate CodesConsented(es: seq<Event>, w: World) {
    && (forall c :: c in w.store.codes ==>
          Consented(es, w.store.codes[c].app, w.store.codes[c].user, w.store.codes[c].uri) && w.store.codes[c].expires <= w.store.clock + 600)
    && (forall pid :: pid in w.procs && w.procs[pid].InsertCode? ==>
          Consented(es, w.procs[pid].app, w.procs[pid].user, w.procs[pid].uri))
  }

  lemma StartIsNoInsert(req: Request)
    ensures Start(req).Continue? ==> !Start(req).p.InsertCode?
  {
  }

  lemma {:induction false} RunConsented(es: seq<Event>)
    ensures CodesConsented(es, Run(INIT, es))
  {
    if es != [] {
      var before, e := es[..|es| - 1], es[|es| - 1];
      RunConsented(before);
      EventConsented(before, e);
      assert es == before + [e];
    }
  }

  lemma EventConsented(es: seq<Event>, e: Event)
    requires CodesConsented(es, Run(INIT, es))
    ensures CodesConsented(es + [e], Apply(Run(INIT, es), e))
  {
    hide Run, Step, ConsentedAt, Registered;
    var w := Run(INIT, es);
    forall app, user, uri | Consented(es, app, user, uri)
      ensures Consented(es + [e], app, user, uri)
    {
      ConsentStays(es, e, app, user, uri);
    }
    hide Consented;
    if e.Begin? { StartIsNoInsert(e.req); }
    if e.Act? && e.pid in w.procs {
      StepMakesCodes(w.store, e.pid, w.procs[e.pid], e.reply);
      var o := Step(w.store, e.pid, w.procs[e.pid], e.reply);
      StepKeepsClock(w.store, e.pid, w.procs[e.pid], e.reply);
      if o.next.Continue? && o.next.p.InsertCode? { ConsentNow(es, e, o.next.p); }
    }
  }

  lemma StepKeepsClock(store: Store, pid: nat, p: Proc, reply: Reply)
    ensures Step(store, pid, p, reply).store.clock == store.clock
  {
    hide RevokeTokensOf, RevokeToken, RevokeAppRow;
  }

  lemma ConsentNow(es: seq<Event>, e: Event, next: Proc)
    requires e.Act? && next.InsertCode? && e.pid in Run(INIT, es).procs
    requires var w := Run(INIT, es); var p := w.procs[e.pid];
             && p.FindForConsent? && p.approved && p.user == next.user && p.uri == next.uri
             && Registered(w.store.apps, p.client, next.app) && !w.store.apps[next.app].revoked
             && p.uri in w.store.apps[next.app].profile.uris
    ensures Consented(es + [e], next.app, next.user, next.uri)
  {
    hide Run;
    assert (es + [e])[..|es|] == es && (es + [e])[|es|] == e;
    assert ConsentedAt(es + [e], |es|, next.app, next.user, next.uri);
  }

  /**
   * In every interleaving, every code stored was approved by its user for its app, and at that moment the app was live and
   * its redirect URI one of those registered; it expires at most ten minutes from now.
   */
  lemma CodesGoToRegisteredUris(es: seq<Event>, code: Id)
    requires code in Run(INIT, es).store.codes
    ensures var w := Run(INIT, es); var row := w.store.codes[code];
            Consented(es, row.app, row.user, row.uri) && row.expires <= w.store.clock + 600
  {
    hide Run, Consented;
    RunConsented(es);
  }
}
