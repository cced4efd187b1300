/** The repository and the endpoints as objects that update their state await by await. */
module OAuthService {
  import opened Basics
  import opened OAuthSteps
  import opened OAuthSafety
  import opened OAuthRequests

  /** The three tables; each method is one statement, answered by `reply`. */
  class OAuthRepo {
    var apps: map<Id, App>
    var codes: map<Id, Code>
    var tokens: map<Id, Token>
    var clock: nat
    var issued: nat

    function Rows(): Store reads this { Store(apps, codes, tokens, clock, issued) }

    constructor ()
      ensures Rows() == INIT.store
    {
      apps, codes, tokens, clock, issued := map[], map[], map[], 0, 0;
    }

    method CreateApp(owner: Id, profile: Profile, reply: Reply) returns (ok: bool)
      modifies this`apps, this`issued
      ensures reply == Fail(false) ==> Rows() == old(Rows())
      ensures reply != Fail(false) ==>
                apps == old(apps)[old(issued) := App(old(issued) + 1, owner, old(issued) + 2, profile, false)] && issued == old(issued) + 3
      ensures ok == reply.Done?
    {
      if reply != Fail(false) {
        apps := apps[issued := App(issued + 1, owner, issued + 2, profile, false)];
        issued := issued + 3;
      }
      ok := reply.Done?;
    }

    /** SELECT by the unique client id. */
    method FindByClientId(client: Id) returns (app: Option<Id>)
      requires FreshApps(apps, issued)
      ensures app == FindClient(apps, client)
    {
      if exists id :: id in apps && apps[id].client == client {
        var id :| id in apps && apps[id].client == client;
        return Some(id);
      }
      return None;
    }

    method UpdateApp(app: Id, profile: Profile, reply: Reply) returns (ok: bool)
      modifies this`apps
      ensures apps == if reply != Fail(false) && app in old(apps) && !old(apps)[app].revoked
                      then old(apps)[app := old(apps)[app].(profile := profile)] else old(apps)
      ensures ok == reply.Done?
    {
      if reply != Fail(false) && app in apps && !apps[app].revoked { apps := apps[app := apps[app].(profile := profile)]; }
      ok := reply.Done?;
    }

    /** The new secret is drawn before the statement; a revoked app keeps its old one. */
    method RotateSecret(app: Id, reply: Reply) returns (ok: bool)
      modifies this`apps, this`issued
      ensures reply == Fail(false) ==> Rows() == old(Rows())
      ensures reply != Fail(false) ==> issued == old(issued) + 1
      ensures reply != Fail(false) ==>
                apps == if app in old(apps) && !old(apps)[app].revoked
                        then old(apps)[app := old(apps)[app].(secret := old(issued))] else old(apps)
      ensures ok == reply.Done?
    {
      if reply != Fail(false) {
        if app in apps && !apps[app].revoked { apps := apps[app := apps[app].(secret := issued)]; }
        issued := issued + 1;
      }
      ok := reply.Done?;
    }

    /** The second statement of deleting an app. */
    method RevokeApp(app: Id, reply: Reply) returns (ok: bool)
      modifies this`apps
      ensures apps == if reply == Fail(false) then old(apps) else RevokeAppRow(old(apps), app)
      ensures ok == reply.Done?
    {
      if reply != Fail(false) && app in apps { apps := apps[app := apps[app].(revoked := true)]; }
      ok := reply.Done?;
    }

    method CreateCode(app: Id, user: Id, uri: string, reply: Reply) returns (ok: bool)
      modifies this`codes, this`issued
      ensures reply == Fail(false) ==> Rows() == old(Rows())
      ensures reply != Fail(false) ==>
                codes == old(codes)[old(issued) := Code(app, user, uri, clock + CODE_LIFETIME, false)] && issued == old(issued) + 1
      ensures ok == reply.Done?
    {
      if reply != Fail(false) {
        codes := codes[issued := Code(app, user, uri, clock + CODE_LIFETIME, false)];
        issued := issued + 1;
      }
      ok := reply.Done?;
    }

    /** UPDATE ... RETURNING: marks an unused, unexpired code and hands it out. */
    method Consume(code: Id, reply: Reply) returns (row: Result<Option<Code>, ()>)
      modifies this`codes
      ensures reply == Fail(false) || ConsumeCode(old(Rows()), code).None? ==> codes == old(codes)
      ensures reply != Fail(false) && ConsumeCode(old(Rows()), code).Some? ==> Rows() == ConsumeCode(old(Rows()), code).value
      ensures row == if reply.Fail? then Err(())
                     else if ConsumeCode(old(Rows()), code).None? then Ok(None) else Ok(Some(old(codes)[code]))
    {
      row := if reply.Fail? then Err(()) else Ok(None);
      if reply != Fail(false) && code in codes && !codes[code].used && codes[code].expires > clock {
        if reply.Done? { row := Ok(Some(codes[code])); }
        codes := codes[code := codes[code].(used := true)];
      }
    }

    method CreateToken(t: Token, reply: Reply) returns (ok: bool)
      modifies this`tokens, this`issued
      ensures reply == Fail(false) ==> Rows() == old(Rows())
      ensures reply != Fail(false) ==> tokens == old(tokens)[old(issued) := t] && issued == old(issued) + 1
      ensures ok == reply.Done?
    {
      if reply != Fail(false) {
        tokens := tokens[issued := t];
        issued := issued + 1;
      }
      ok := reply.Done?;
    }

    method RevokeToken(token: Id, reply: Reply) returns (ok: bool)
      modifies this`tokens
      ensures tokens == if reply == Fail(false) then old(tokens) else OAuthSteps.RevokeToken(old(tokens), token)
      ensures ok == reply.Done?
    {
      if reply != Fail(false) && token in tokens { tokens := tokens[token := tokens[token].(revoked := true)]; }
      ok := reply.Done?;
    }

    method RevokeAllForApp(app: Id, reply: Reply) returns (ok: bool)
      modifies this`tokens
      ensures tokens == if reply == Fail(false) then old(tokens) else RevokeTokensOf(old(tokens), app)
      ensures ok == reply.Done?
    {
      if reply != Fail(false) {
        var left := set t | t in tokens && tokens[t].app == app;
        ghost var start, todo := tokens, left;
        while left != {}
          invariant left <= todo && tokens.Keys == start.Keys
          invariant forall t :: t in start ==> tokens[t] == if t in todo - left then start[t].(revoked := true) else start[t]
          decreases left
        {
          var t :| t in left;
          tokens := tokens[t := tokens[t].(revoked := true)];
          left := left - {t};
        }
      }
      ok := reply.Done?;
    }
  }

  class OAuthHandlers {
    const repo: OAuthRepo

    constructor (repo: OAuthRepo)
      ensures this.repo == repo
    {
      this.repo := repo;
    }

    ghost predicate Valid() reads repo { Sound(repo.Rows()) }

    /** The request performed from the old state ends in the current one with this answer. */
    twostate predicate Performed(pid: nat, req: Request, replies: nat -> Reply, answer: Answer)
      reads repo
    {
      Final(repo.Rows(), answer) == Perform(old(repo.Rows()), pid, req, replies)
    }

    twostate predicate Finished(pid: nat, p: Proc, replies: nat -> Reply, k: nat, answer: Answer)
      reads repo
    {
      Final(repo.Rows(), answer) == Finish(old(repo.Rows()), pid, Continue(p), replies, k)
    }

    method Token(pid: nat, client: Id, secret: Id, grant: Grant, replies: nat -> Reply) returns (answer: Answer)
      requires Valid()
      modifies repo
      ensures Valid() && Performed(pid, TokenRequest(client, secret, grant), replies, answer)
    {
      hide Sound, Finish, ConsumeCode, RevokeTokensOf, OAuthSteps.RevokeToken;
      ghost var store := repo.Rows();
      PerformKeepsSound(store, pid, TokenRequest(client, secret, grant), replies);
      Advance(store, pid, Authenticate(client, secret, grant), replies, 0);
      if replies(0).Fail? { return Internal; }
      SoundApps(store);
      var found := repo.FindByClientId(client);
      if found.None? || repo.apps[found.value].revoked { return Unauthorized; }
      if repo.apps[found.value].secret != secret { return Unauthorized; }
      match grant
      case ByCode(code, uri) =>
        if code.None? || uri.None? { return Validation; }
        answer := Exchange(pid, client, found.value, code.value, uri.value, replies);
      case ByToken(token) =>
        if token.None? { return Validation; }
        answer := Rotate(pid, found.value, token.value, replies);
      case Unsupported => return Validation;
    }

    lemma SoundApps(store: Store)
      requires Sound(store)
      ensures FreshApps(store.apps, store.issued)
    {
    }

    /** The authorization-code branch: consume first, then check, then issue. */
    method Exchange(pid: nat, client: Id, app: Id, code: Id, uri: string, replies: nat -> Reply) returns (answer: Answer)
      modifies repo
      ensures Finished(pid, Consume(client, app, code, uri), replies, 1, answer)
    {
      hide Finish, ConsumeCode;
      Advance(repo.Rows(), pid, OAuthSteps.Consume(client, app, code, uri), replies, 1);
      var consumed := repo.Consume(code, replies(1));
      if consumed.Err? { return Internal; }
      if consumed.value.None? { return Validation; }
      var row := consumed.value.value;
      if row.app != app { return Unauthorized; }
      if row.uri != uri { return Validation; }
      answer := IssueRefreshToken(pid, app, row.user, code, Exchanged(client, uri), replies, 2);
    }

    /** The refresh branch: find, revoke the old token, issue the new one. */
    method Rotate(pid: nat, app: Id, token: Id, replies: nat -> Reply) returns (answer: Answer)
      modifies repo
      ensures Finished(pid, FindToken(app, token), replies, 1, answer)
    {
      hide Finish, OAuthSteps.RevokeToken;
      Advance(repo.Rows(), pid, FindToken(app, token), replies, 1);
      if replies(1).Fail? { return Internal; }
      if token !in repo.tokens { return Unauthorized; }
      var row := repo.tokens[token];
      if row.revoked || row.app != app { return Unauthorized; }

      Advance(repo.Rows(), pid, RevokeOld(app, token, row.user, row.code), replies, 2);
      var revoked := repo.RevokeToken(token, replies(2));
      if !revoked { return Internal; }
      answer := IssueRefreshToken(pid, app, row.user, row.code, Rotated(token), replies, 3);
    }

    method IssueRefreshToken(pid: nat, app: Id, user: Id, code: Id, origin: Origin, replies: nat -> Reply, k: nat)
      returns (answer: Answer)
      modifies repo
      ensures Finished(pid, Issue(app, user, code, origin), replies, k, answer)
    {
      hide Finish;
      Advance(repo.Rows(), pid, Issue(app, user, code, origin), replies, k);
      var stored := repo.CreateToken(OAuthSteps.Token(app, user, false, code, origin, pid), replies(k));
      return if stored then Success else Internal;
    }

    method Revoke(pid: nat, client: Id, secret: Id, target: Id, replies: nat -> Reply) returns (answer: Answer)
      requires Valid()
      modifies repo
      ensures Valid() && Performed(pid, OAuthSteps.Revoke(client, secret, target), replies, answer)
    {
      hide Sound, Finish, OAuthSteps.RevokeToken;
      ghost var store := repo.Rows();
      PerformKeepsSound(store, pid, OAuthSteps.Revoke(client, secret, target), replies);
      Advance(store, pid, AuthenticateRevoke(client, secret, target), replies, 0);
      if replies(0).Fail? { return Internal; }
      SoundApps(store);
      var found := repo.FindByClientId(client);
      if found.None? || repo.apps[found.value].secret != secret { return Unauthorized; }

      Advance(store, pid, FindRevoked(found.value, target), replies, 1);
      if replies(1).Fail? { return Internal; }
      if target !in repo.tokens || repo.tokens[target].app != found.value || repo.tokens[target].revoked { return Success; }

      Advance(store, pid, RevokeIt(target), replies, 2);
      var revoked := repo.RevokeToken(target, replies(2));
      return if revoked then Success else Internal;
    }

    method DeleteApp(pid: nat, actor: Id, app: Id, replies: nat -> Reply) returns (answer: Answer)
      requires Valid()
      modifies repo
      ensures Valid() && Performed(pid, OAuthSteps.DeleteApp(actor, app), replies, answer)
    {
      hide Sound, Finish, RevokeTokensOf, RevokeAppRow;
      ghost var store := repo.Rows();
      PerformKeepsSound(store, pid, OAuthSteps.DeleteApp(actor, app), replies);
      Advance(store, pid, LoadForDelete(actor, app), replies, 0);
      if replies(0).Fail? { return Internal; }
      if app !in repo.apps || repo.apps[app].owner != actor { return NotFound; }

      Advance(store, pid, RevokeTokens(app), replies, 1);
      var revoked := repo.RevokeAllForApp(app, replies(1));
      if !revoked { return Internal; }

      Advance(repo.Rows(), pid, OAuthSteps.RevokeApp(app), replies, 2);
      var marked := repo.RevokeApp(app, replies(2));
      return if marked then Success else Internal;
    }

    method RotateSecret(pid: nat, actor: Id, app: Id, replies: nat -> Reply) returns (answer: Answer)
      requires Valid()
      modifies repo
      ensures Valid() && Performed(pid, OAuthSteps.RotateSecret(actor, app), replies, answer)
    {
      hide Sound, Finish, RevokeTokensOf;
      ghost var store := repo.Rows();
      PerformKeepsSound(store, pid, OAuthSteps.RotateSecret(actor, app), replies);
      Advance(store, pid, LoadForRotate(actor, app), replies, 0);
      if replies(0).Fail? { return Internal; }
      if app !in repo.apps || repo.apps[app].owner != actor { return NotFound; }

      Advance(store, pid, WriteSecret(app), replies, 1);
      var written := repo.RotateSecret(app, replies(1));
      if !written { return Internal; }

      Advance(repo.Rows(), pid, RevokeAll(app), replies, 2);
      var revoked := repo.RevokeAllForApp(app, replies(2));
      return if revoked then Success else Internal;
    }

    method Authorize(pid: nat, client: Id, uri: string, approved: bool, user: Id, replies: nat -> Reply) returns (answer: Answer)
      requires Valid()
      modifies repo
      ensures Valid() && Performed(pid, OAuthSteps.Authorize(client, uri, approved, user), replies, answer)
    {
      hide Sound, Finish;
      ghost var store := repo.Rows();
      PerformKeepsSound(store, pid, OAuthSteps.Authorize(client, uri, approved, user), replies);
      Advance(store, pid, FindForConsent(client, uri, approved, user), replies, 0);
      if replies(0).Fail? { return Internal; }
      SoundApps(store);
      var found := repo.FindByClientId(client);
      if found.None? || repo.apps[found.value].revoked { return NotFound; }
      if uri !in repo.apps[found.value].profile.uris { return Validation; }
      if !approved { return Denied; }

      Advance(store, pid, InsertCode(found.value, user, uri), replies, 1);
      var stored := repo.CreateCode(found.value, user, uri, replies(1));
      return if stored then Success else Internal;
    }

    method CreateApp(pid: nat, owner: Id, nameOk: bool, profile: Profile, replies: nat -> Reply) returns (answer: Answer)
      requires Valid()
      modifies repo
      ensures Valid() && Performed(pid, OAuthSteps.CreateApp(owner, nameOk, profile), replies, answer)
    {
      hide Sound, Finish;
      ghost var store := repo.Rows();
      PerformKeepsSound(store, pid, OAuthSteps.CreateApp(owner, nameOk, profile), replies);
      if !nameOk || profile.uris == {} {
        Returned(store, pid, Validation, replies, 0);
        return Validation;
      }
      Advance(store, pid, InsertApp(owner, profile), replies, 0);
      var stored := repo.CreateApp(owner, profile, replies(0));
      return if stored then Success else Internal;
    }

    method UpdateApp(pid: nat, actor: Id, app: Id, nameOk: bool, profile: Profile, replies: nat -> Reply) returns (answer: Answer)
      requires Valid()
      modifies repo
      ensures Valid() && Performed(pid, OAuthSteps.UpdateApp(actor, app, nameOk, profile), replies, answer)
    {
      hide Sound, Finish;
      ghost var store := repo.Rows();
      PerformKeepsSound(store, pid, OAuthSteps.UpdateApp(actor, app, nameOk, profile), replies);
      if !nameOk || profile.uris == {} {
        Returned(store, pid, Validation, replies, 0);
        return Validation;
      }
      Advance(store, pid, LoadForUpdate(actor, app, profile), replies, 0);
      if replies(0).Fail? { return Internal; }
      if app !in repo.apps || repo.apps[app].owner != actor { return NotFound; }

      Advance(store, pid, WriteProfile(app, profile), replies, 1);
      var written := repo.UpdateApp(app, profile, replies(1));
      return if written then Success else Internal;
    }
  }

  /** The token endpoint's three cases by grant type. */
  function TokenRequest(client: Id, secret: Id, grant: Grant): Request {
    match grant
    case ByCode(code, uri) => ExchangeCode(client, secret, code, uri)
    case ByToken(token) => Refresh(client, secret, token)
    case Unsupported => OtherGrant(client, secret)
  }
}
