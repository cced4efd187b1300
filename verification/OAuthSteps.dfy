/** The OAuth tables and each endpoint as the sequence of its awaits; one step per await. */
module OAuthSteps {
  import opened Basics

  type Id = nat

  /** What the owner may edit. */
  datatype Profile = Profile(name: string, description: Option<string>, uris: set<string>)

  /** `secret`, and the keys of codes and tokens, are raw values; hashing is injective, so rows are found by raw value. */
  datatype App = App(client: Id, owner: Id, secret: Id, profile: Profile, revoked: bool)

  datatype Code = Code(app: Id, user: Id, uri: string, expires: nat, used: bool)

  /** How a token came about: from a code presented with this client and redirect URI, or by rotating another token. */
  datatype Origin = Exchanged(client: Id, uri: string) | Rotated(parent: Id)

  /** `code`, `origin` and `issuer` are history: the code it descends from, and the request that issued it. */
  datatype Token = Token(app: Id, user: Id, revoked: bool, code: Id, origin: Origin, issuer: nat)

  type Apps = map<Id, App>
  type Codes = map<Id, Code>
  type Tokens = map<Id, Token>

  /** `issued` counts the fresh ids, codes, tokens and secrets handed out so far. */
  datatype Store = Store(apps: Apps, codes: Codes, tokens: Tokens, clock: nat, issued: nat)

  const CODE_LIFETIME: nat := 600

  datatype Answer = Success | Internal | Validation | NotFound | Unauthorized | Denied

  datatype Request =
    | CreateApp(owner: Id, nameOk: bool, profile: Profile)
    | UpdateApp(actor: Id, app: Id, nameOk: bool, profile: Profile)
    | DeleteApp(actor: Id, app: Id)
    | RotateSecret(actor: Id, app: Id)
    | Authorize(client: Id, redirect: string, approved: bool, user: Id)
    | ExchangeCode(client: Id, secret: Id, code: Option<Id>, uri: Option<string>)
    | Refresh(client: Id, secret: Id, token: Option<Id>)
    | OtherGrant(client: Id, secret: Id)
    | Revoke(client: Id, secret: Id, target: Id)

  datatype Grant =
    | ByCode(code: Option<Id>, uri: Option<string>)
    | ByToken(token: Option<Id>)
    | Unsupported

  datatype Proc =
    | InsertApp(owner: Id, profile: Profile)
    | LoadForUpdate(actor: Id, app: Id, profile: Profile)
    | WriteProfile(app: Id, profile: Profile)
    | LoadForDelete(actor: Id, app: Id)
    | RevokeTokens(app: Id)
    | RevokeApp(app: Id)
    | LoadForRotate(actor: Id, app: Id)
    | WriteSecret(app: Id)
    | RevokeAll(app: Id)
    | FindForConsent(client: Id, uri: string, approved: bool, user: Id)
    | InsertCode(app: Id, user: Id, uri: string)
    | Authenticate(client: Id, secret: Id, grant: Grant)
    | Consume(client: Id, app: Id, code: Id, uri: string)
    | FindToken(app: Id, token: Id)
    | RevokeOld(app: Id, token: Id, user: Id, code: Id)
    | Issue(app: Id, user: Id, code: Id, origin: Origin)
    | AuthenticateRevoke(client: Id, secret: Id, token: Id)
    | FindRevoked(app: Id, token: Id)
    | RevokeIt(token: Id)

  datatype Next = Continue(p: Proc) | Return(answer: Answer)

  datatype Outcome = Outcome(store: Store, next: Next)

  function Start(req: Request): Next {
    match req
    case CreateApp(owner, nameOk, profile) =>
      if !nameOk || profile.uris == {} then Return(Validation) else Continue(InsertApp(owner, profile))
    case UpdateApp(actor, app, nameOk, profile) =>
      if !nameOk || profile.uris == {} then Return(Validation) else Continue(LoadForUpdate(actor, app, profile))
    case DeleteApp(actor, app) => Continue(LoadForDelete(actor, app))
    case RotateSecret(actor, app) => Continue(LoadForRotate(actor, app))
    case Authorize(client, uri, approved, user) => Continue(FindForConsent(client, uri, approved, user))
    case ExchangeCode(client, secret, code, uri) => Continue(Authenticate(client, secret, ByCode(code, uri)))
    case Refresh(client, secret, token) => Continue(Authenticate(client, secret, ByToken(token)))
    case OtherGrant(client, secret) => Continue(Authenticate(client, secret, Unsupported))
    case Revoke(client, secret, token) => Continue(AuthenticateRevoke(client, secret, token))
  }

  // --- Statements -----------------------------------------------------------------

  /** SELECT by client id, a unique key. */
  ghost function FindClient(apps: Apps, client: Id): (r: Option<Id>)
    ensures r.Some? ==> r.value in apps && apps[r.value].client == client
    ensures r.None? ==> forall id :: id in apps ==> apps[id].client != client
  {
    if id :| id in apps && apps[id].client == client then Some(id) else None
  }

  /** UPDATE ... SET used_at = NOW() WHERE used_at IS NULL AND expires_at > NOW() RETURNING, in one statement. */
  function ConsumeCode(store: Store, code: Id): Option<Store> {
    if code in store.codes && !store.codes[code].used && store.codes[code].expires > store.clock
    then Some(store.(codes := store.codes[code := store.codes[code].(used := true)]))
    else None
  }

  function RevokeToken(tokens: Tokens, token: Id): Tokens {
    if token in tokens then tokens[token := tokens[token].(revoked := true)] else tokens
  }

  function RevokeTokensOf(tokens: Tokens, app: Id): Tokens {
    map t | t in tokens :: if tokens[t].app == app then tokens[t].(revoked := true) else tokens[t]
  }

  function RevokeAppRow(apps: Apps, app: Id): Apps {
    if app in apps then apps[app := apps[app].(revoked := true)] else apps
  }

  // --- One await --------------------------------------------------------------------

  ghost function Step(store: Store, pid: nat, p: Proc, reply: Reply): Outcome {
    if reply == Fail(false) then Outcome(store, Return(Internal)) else
    match p
    case InsertApp(owner, profile) =>
      var app := App(store.issued + 1, owner, store.issued + 2, profile, false);
      Outcome(store.(apps := store.apps[store.issued := app], issued := store.issued + 3), Ended(reply))
    case LoadForUpdate(actor, app, profile) => Read(store, reply, OwnedThen(store, actor, app, WriteProfile(app, profile)))
    case WriteProfile(app, profile) =>
      Outcome(if app in store.apps && !store.apps[app].revoked
              then store.(apps := store.apps[app := store.apps[app].(profile := profile)]) else store, Ended(reply))
    case LoadForDelete(actor, app) => Read(store, reply, OwnedThen(store, actor, app, RevokeTokens(app)))
    case RevokeTokens(app) =>
      Outcome(store.(tokens := RevokeTokensOf(store.tokens, app)), Then(reply, RevokeApp(app)))
    case RevokeApp(app) => Outcome(store.(apps := RevokeAppRow(store.apps, app)), Ended(reply))
    case LoadForRotate(actor, app) => Read(store, reply, OwnedThen(store, actor, app, WriteSecret(app)))
    case WriteSecret(app) =>
      Outcome((if app in store.apps && !store.apps[app].revoked
               then store.(apps := store.apps[app := store.apps[app].(secret := store.issued)]) else store)
                .(issued := store.issued + 1), Then(reply, RevokeAll(app)))
    case RevokeAll(app) => Outcome(store.(tokens := RevokeTokensOf(store.tokens, app)), Ended(reply))
    case FindForConsent(client, uri, approved, user) => Read(store, reply, Consent(store, client, uri, approved, user))
    case InsertCode(app, user, uri) =>
      var code := Code(app, user, uri, store.clock + CODE_LIFETIME, false);
      Outcome(store.(codes := store.codes[store.issued := code], issued := store.issued + 1), Ended(reply))
    case Authenticate(client, secret, grant) => Read(store, reply, Authenticated(store, client, secret, grant))
    case Consume(client, app, code, uri) =>
      (match ConsumeCode(store, code)
       case None => Outcome(store, Return(if reply.Fail? then Internal else Validation))
       case Some(after) => Outcome(after, if reply.Fail? then Return(Internal) else Exchange(store.codes[code], client, app, code, uri)))
    case FindToken(app, token) => Read(store, reply, Rotatable(store, app, token))
    case RevokeOld(app, token, user, code) =>
      Outcome(store.(tokens := RevokeToken(store.tokens, token)), Then(reply, Issue(app, user, code, Rotated(token))))
    case Issue(app, user, code, origin) =>
      var token := Token(app, user, false, code, origin, pid);
      Outcome(store.(tokens := store.tokens[store.issued := token], issued := store.issued + 1), Ended(reply))
    case AuthenticateRevoke(client, secret, token) => Read(store, reply, MayRevoke(store, client, secret, token))
    case FindRevoked(app, token) =>
      Read(store, reply,
        if token in store.tokens && store.tokens[token].app == app && !store.tokens[token].revoked
        then Continue(RevokeIt(token)) else Return(Success))
    case RevokeIt(token) => Outcome(store.(tokens := RevokeToken(store.tokens, token)), Ended(reply))
  }

  function Ended(reply: Reply): Next { Return(if reply.Fail? then Internal else Success) }

  function Then(reply: Reply, p: Proc): Next { if reply.Fail? then Return(Internal) else Continue(p) }

  ghost function Read(store: Store, reply: Reply, next: Next): Outcome {
    Outcome(store, if reply.Fail? then Return(Internal) else next)
  }

  /** An app of another owner is reported as absent. */
  function OwnedThen(store: Store, actor: Id, app: Id, p: Proc): Next {
    if app !in store.apps || store.apps[app].owner != actor then Return(NotFound) else Continue(p)
  }

  ghost function Consent(store: Store, client: Id, uri: string, approved: bool, user: Id): Next {
    var found := FindClient(store.apps, client);
    if found.None? || store.apps[found.value].revoked then Return(NotFound)
    else if uri !in store.apps[found.value].profile.uris then Return(Validation)
    else if !approved then Return(Denied)
    else Continue(InsertCode(found.value, user, uri))
  }

  ghost function Authenticated(store: Store, client: Id, secret: Id, grant: Grant): Next {
    var found := FindClient(store.apps, client);
    if found.None? || store.apps[found.value].revoked || store.apps[found.value].secret != secret then Return(Unauthorized)
    else match grant
      case ByCode(code, uri) =>
        if code.None? || uri.None? then Return(Validation) else Continue(Consume(client, found.value, code.value, uri.value))
      case ByToken(token) =>
        if token.None? then Return(Validation) else Continue(FindToken(found.value, token.value))
      case Unsupported => Return(Validation)
  }

  /** The checks on the consumed code. */
  function Exchange(row: Code, client: Id, app: Id, code: Id, uri: string): Next {
    if row.app != app then Return(Unauthorized)
    else if row.uri != uri then Return(Validation)
    else Continue(Issue(app, row.user, code, Exchanged(client, uri)))
  }

  function Rotatable(store: Store, app: Id, token: Id): Next {
    if token !in store.tokens || store.tokens[token].revoked || store.tokens[token].app != app then Return(Unauthorized)
    else Continue(RevokeOld(app, token, store.tokens[token].user, store.tokens[token].code))
  }

  /** The revocation endpoint does not look at whether the app itself is revoked. */
  ghost function MayRevoke(store: Store, client: Id, secret: Id, token: Id): Next {
    var found := FindClient(store.apps, client);
    if found.None? || store.apps[found.value].secret != secret then Return(Unauthorized)
    else Continue(FindRevoked(found.value, token))
  }
}
