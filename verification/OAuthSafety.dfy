/** Codes and tokens in every interleaving, and in runs of requests handled one after another. */
module OAuthSafety {
  import opened Basics
  import opened OAuthSteps

  datatype World = World(store: Store, procs: map<nat, Proc>, nextPid: nat)

  datatype Event =
    | Begin(req: Request)
    | Act(pid: nat, reply: Reply)
    | Drop(pid: nat)
    | Tick

  const INIT: World := World(Store(map[], map[], map[], 0, 0), map[], 0)

  ghost function Apply(w: World, e: Event): World {
    match e
    case Begin(req) =>
      (match Start(req)
       case Return(_) => w.(nextPid := w.nextPid + 1)
       case Continue(p) => w.(procs := w.procs[w.nextPid := p], nextPid := w.nextPid + 1))
    case Act(pid, reply) =>
      if pid !in w.procs then w
      else
        var o := Step(w.store, pid, w.procs[pid], reply);
        w.(store := o.store, procs := if o.next.Continue? then w.procs[pid := o.next.p] else w.procs - {pid})
    case Drop(pid) => w.(procs := w.procs - {pid})
    case Tick => w.(store := w.store.(clock := w.store.clock + 1))
  }

  ghost function Run(w: World, es: seq<Event>): World {
    if es == [] then w else Apply(Run(w, es[..|es| - 1]), es[|es| - 1])
  }

  // --- What no step undoes ------------------------------------------------------------

  ghost predicate AppsExtend(apps: Apps, after: Apps) {
    forall a :: a in apps ==> a in after && after[a].client == apps[a].client && after[a].owner == apps[a].owner
                              && (apps[a].revoked ==> after[a].revoked)
  }

  ghost predicate CodesExtend(codes: Codes, after: Codes) {
    forall c :: c in codes ==> c in after && after[c].(used := codes[c].used) == codes[c] && (codes[c].used ==> after[c].used)
  }

  ghost predicate TokensExtend(tokens: Tokens, after: Tokens) {
    forall t :: t in tokens ==> t in after && after[t].(revoked := tokens[t].revoked) == tokens[t]
                                && (tokens[t].revoked ==> after[t].revoked)
  }

  ghost predicate Extends(store: Store, after: Store) {
    && store.issued <= after.issued && store.clock <= after.clock
    && AppsExtend(store.apps, after.apps) && CodesExtend(store.codes, after.codes) && TokensExtend(store.tokens, after.tokens)
  }

  ghost predicate FreshApps(apps: Apps, issued: nat) {
    && (forall a :: a in apps ==> a < issued && apps[a].client < issued)
    && (forall a, b :: a in apps && b in apps && apps[a].client == apps[b].client ==> a == b)
  }

  ghost predicate Below<T>(rows: map<Id, T>, issued: nat) { forall k :: k in rows ==> k < issued }

  ghost predicate Fresh(store: Store) {
    FreshApps(store.apps, store.issued) && Below(store.codes, store.issued) && Below(store.tokens, store.issued)
  }

  lemma Reflexive(store: Store)
    ensures Extends(store, store)
  {
  }

  lemma RevokeTokenKeeps(tokens: Tokens, token: Id)
    ensures TokensExtend(tokens, RevokeToken(tokens, token)) && RevokeToken(tokens, token).Keys == tokens.Keys
  {
  }

  lemma RevokeTokensKeeps(tokens: Tokens, app: Id)
    ensures TokensExtend(tokens, RevokeTokensOf(tokens, app)) && RevokeTokensOf(tokens, app).Keys == tokens.Keys
  {
  }

  lemma NewTokenKeeps(tokens: Tokens, id: Id, t: Token)
    requires id !in tokens
    ensures TokensExtend(tokens, tokens[id := t])
  {
  }

  lemma AppChangeKeeps(apps: Apps, app: Id, row: App)
    requires app in apps ==> row.client == apps[app].client && row.owner == apps[app].owner && (apps[app].revoked ==> row.revoked)
    ensures AppsExtend(apps, apps[app := row])
  {
  }

  lemma StepExtendsApps(store: Store, pid: nat, p: Proc, reply: Reply)
    requires FreshApps(store.apps, store.issued)
    ensures AppsExtend(store.apps, Step(store, pid, p, reply).store.apps)
  {
    hide FreshApps, Authenticated, Consent, MayRevoke, Rotatable, Exchange, OwnedThen, RevokeToken, RevokeTokensOf;
    hide ConsumeCode;
    assert AppsExtend(store.apps, store.apps);
    hide AppsExtend;
    match p
    case InsertApp(owner, profile) =>
      AppChangeKeeps(store.apps, store.issued, App(store.issued + 1, owner, store.issued + 2, profile, false)) by {
        AppsBelow(store.apps, store.issued);
      }
    case WriteProfile(app, profile) => if app in store.apps { AppChangeKeeps(store.apps, app, store.apps[app].(profile := profile)); }
    case WriteSecret(app) => if app in store.apps { AppChangeKeeps(store.apps, app, store.apps[app].(secret := store.issued)); }
    case RevokeApp(app) => if app in store.apps { AppChangeKeeps(store.apps, app, store.apps[app].(revoked := true)); }
    case Consume(_, _, _, _) => ConsumeKeepsRest(store, p.code);
    case _ =>
  }

  lemma ConsumeKeepsRest(store: Store, code: Id)
    ensures var r := ConsumeCode(store, code);
            r.Some? ==> r.value == store.(codes := r.value.codes) && CodesExtend(store.codes, r.value.codes)
                        && r.value.codes.Keys == store.codes.Keys
  {
  }

  lemma StepExtendsCodes(store: Store, pid: nat, p: Proc, reply: Reply)
    requires Below(store.codes, store.issued)
    ensures var after := Step(store, pid, p, reply).store;
            CodesExtend(store.codes, after.codes) && (!p.InsertCode? ==> after.codes.Keys == store.codes.Keys)
  {
    hide Authenticated, Consent, MayRevoke, Rotatable, Exchange, OwnedThen, RevokeToken, RevokeTokensOf;
    hide RevokeAppRow, ConsumeCode;
    assert CodesExtend(store.codes, store.codes);
    if p.Consume? { ConsumeKeepsRest(store, p.code); }
  }

  lemma StepExtendsTokens(store: Store, pid: nat, p: Proc, reply: Reply)
    requires Below(store.tokens, store.issued)
    ensures var after := Step(store, pid, p, reply).store;
            TokensExtend(store.tokens, after.tokens) && (!p.Issue? ==> after.tokens.Keys == store.tokens.Keys)
  {
    hide Authenticated, Consent, MayRevoke, Rotatable, Exchange, OwnedThen, RevokeToken, RevokeTokensOf;
    hide RevokeAppRow, ConsumeCode;
    assert TokensExtend(store.tokens, store.tokens);
    hide TokensExtend;
    match p
    case RevokeTokens(app) => RevokeTokensKeeps(store.tokens, app);
    case RevokeAll(app) => RevokeTokensKeeps(store.tokens, app);
    case RevokeOld(_, token, _, _) => RevokeTokenKeeps(store.tokens, token);
    case RevokeIt(token) => RevokeTokenKeeps(store.tokens, token);
    case Issue(app, user, code, origin) => NewTokenKeeps(store.tokens, store.issued, Token(app, user, false, code, origin, pid));
    case Consume(_, _, _, _) => ConsumeKeepsRest(store, p.code);
    case _ =>
  }

  lemma StepCounts(store: Store, pid: nat, p: Proc, reply: Reply)
    ensures var after := Step(store, pid, p, reply).store; store.issued <= after.issued && store.clock <= after.clock
  {
    hide Authenticated, Consent, MayRevoke, Rotatable, Exchange, OwnedThen, RevokeToken, RevokeTokensOf, RevokeAppRow;
  }

  /** Rows stay, with everything but their revocation, use, profile and secret; only `Issue` adds a token. */
  lemma StepExtends(store: Store, pid: nat, p: Proc, reply: Reply)
    requires Fresh(store)
    ensures var o := Step(store, pid, p, reply);
            && Extends(store, o.store)
            && (!p.Issue? ==> o.store.tokens.Keys == store.tokens.Keys)
            && (!p.InsertCode? ==> o.store.codes.Keys == store.codes.Keys)
  {
    hide Step, FreshApps, Below, AppsExtend, CodesExtend, TokensExtend;
    StepExtendsApps(store, pid, p, reply);
    StepExtendsCodes(store, pid, p, reply);
    StepExtendsTokens(store, pid, p, reply);
    StepCounts(store, pid, p, reply);
  }

  lemma AppsBelow(apps: Apps, issued: nat)
    requires FreshApps(apps, issued)
    ensures issued !in apps
  {
  }

  lemma BelowGrows<T>(rows: map<Id, T>, after: map<Id, T>, issued: nat, later: nat)
    requires Below(rows, issued) && after.Keys <= rows.Keys + {issued} && (after.Keys == rows.Keys || issued < later) && issued <= later
    ensures Below(after, later)
  {
  }

  lemma SameClientsFresh(apps: Apps, after: Apps, issued: nat, later: nat)
    requires FreshApps(apps, issued) && issued <= later && after.Keys == apps.Keys
    requires forall a :: a in apps ==> after[a].client == apps[a].client
    ensures FreshApps(after, later)
  {
  }

  lemma StepFresh(store: Store, pid: nat, p: Proc, reply: Reply)
    requires Fresh(store)
    ensures Fresh(Step(store, pid, p, reply).store)
  {
    hide FreshApps, Below, Extends, Authenticated, Consent, MayRevoke, Rotatable, Exchange, OwnedThen;
    hide RevokeTokensOf, RevokeToken;
    var after := Step(store, pid, p, reply).store;
    StepExtends(store, pid, p, reply);
    BelowGrows(store.codes, after.codes, store.issued, after.issued);
    BelowGrows(store.tokens, after.tokens, store.issued, after.issued);
    if p.InsertApp? {
      InsertAppFresh(store.apps, store.issued, App(store.issued + 1, p.owner, store.issued + 2, p.profile, false));
    }
    if !p.InsertApp? || reply == Fail(false) { SameClientsFresh(store.apps, after.apps, store.issued, after.issued); }
  }

  lemma InsertAppFresh(apps: Apps, issued: nat, row: App)
    requires FreshApps(apps, issued) && row.client == issued + 1
    ensures FreshApps(apps[issued := row], issued + 3)
  {
  }

  // --- One token per code, for the right app and redirect URI ----------------------------

  /** The token agrees with the code it descends from. */
  ghost predicate Descends(store: Store, app: Id, user: Id, code: Id, origin: Origin) {
    && code in store.codes && store.codes[code].used
    && store.codes[code].app == app && store.codes[code].user == user
    && app in store.apps
    && (origin.Exchanged? ==> origin.uri == store.codes[code].uri && origin.client == store.apps[app].client)
  }

  ghost predicate TokenOk(store: Store, t: Token) { Descends(store, t.app, t.user, t.code, t.origin) }

  ghost predicate ProcOk(store: Store, p: Proc) {
    match p
    case Consume(client, app, _, _) => app in store.apps && store.apps[app].client == client
    case InsertCode(app, _, _) => app in store.apps
    case RevokeTokens(app) => app in store.apps
    case RevokeApp(app) => app in store.apps
    case RevokeOld(app, token, user, code) =>
      token in store.tokens && store.tokens[token].app == app && store.tokens[token].user == user && store.tokens[token].code == code
    case Issue(app, user, code, origin) => Descends(store, app, user, code, origin)
    case _ => true
  }

  /** The code a token was directly exchanged for. */
  ghost function DirectCode(t: Token): Option<Id> { if t.origin.Exchanged? then Some(t.code) else None }

  /** The code a request has consumed without having stored its token yet. */
  ghost function HeldCode(p: Proc): Option<Id> { if p.Issue? && p.origin.Exchanged? then Some(p.code) else None }

  /** Each code is held by at most one request or has at most one direct token, never both. */
  ghost predicate OneExchange(tokens: Tokens, procs: map<nat, Proc>) {
    && (forall s, t :: s in tokens && t in tokens && s != t && DirectCode(tokens[s]).Some? ==>
          DirectCode(tokens[s]) != DirectCode(tokens[t]))
    && (forall p, q :: p in procs && q in procs && p != q && HeldCode(procs[p]).Some? ==>
          HeldCode(procs[p]) != HeldCode(procs[q]))
    && (forall p, t :: p in procs && t in tokens && HeldCode(procs[p]).Some? ==>
          HeldCode(procs[p]) != DirectCode(tokens[t]))
  }

  ghost predicate CodesOk(codes: Codes, apps: Apps) { forall c :: c in codes ==> codes[c].app in apps }

  ghost predicate TokensOk(store: Store) { forall t :: t in store.tokens ==> TokenOk(store, store.tokens[t]) }

  ghost predicate ProcsOk(store: Store, procs: map<nat, Proc>) { forall p :: p in procs ==> ProcOk(store, procs[p]) }

  ghost predicate WorldOk(w: World) {
    && Fresh(w.store) && CodesOk(w.store.codes, w.store.apps) && TokensOk(w.store) && ProcsOk(w.store, w.procs)
    && OneExchange(w.store.tokens, w.procs) && (forall p :: p in w.procs ==> p < w.nextPid)
    && IssuersBegun(w.store.tokens, w.nextPid)
  }

  ghost predicate IssuersBegun(tokens: Tokens, nextPid: nat) { forall t :: t in tokens ==> tokens[t].issuer < nextPid }

  lemma DescendsStays(store: Store, after: Store, app: Id, user: Id, code: Id, origin: Origin)
    requires Extends(store, after) && Descends(store, app, user, code, origin)
    ensures Descends(after, app, user, code, origin)
  {
  }

  lemma ProcStays(store: Store, after: Store, p: Proc)
    requires Extends(store, after) && ProcOk(store, p)
    ensures ProcOk(after, p)
  {
  }

  lemma CodesStay(store: Store, after: Store)
    requires Extends(store, after) && CodesOk(store.codes, store.apps) && after.codes.Keys == store.codes.Keys
    ensures CodesOk(after.codes, after.apps)
  {
  }

  lemma TokensStay(store: Store, after: Store)
    requires Extends(store, after) && TokensOk(store)
    ensures forall t :: t in store.tokens ==> t in after.tokens && TokenOk(after, after.tokens[t])
  {
    forall t | t in store.tokens
      ensures t in after.tokens && TokenOk(after, after.tokens[t])
    {
      var row := store.tokens[t];
      assert TokenOk(store, row);
      DescendsStays(store, after, row.app, row.user, row.code, row.origin);
    }
  }

  lemma StepKeepsTokens(store: Store, pid: nat, p: Proc, reply: Reply)
    requires Fresh(store) && TokensOk(store) && ProcOk(store, p)
    ensures TokensOk(Step(store, pid, p, reply).store)
  {
    hide Extends, Descends;
    var after := Step(store, pid, p, reply).store;
    StepExtends(store, pid, p, reply);
    TokensStay(store, after);
    if p.Issue? { DescendsStays(store, after, p.app, p.user, p.code, p.origin); }
  }

  lemma StepKeepsCodes(store: Store, pid: nat, p: Proc, reply: Reply)
    requires Fresh(store) && CodesOk(store.codes, store.apps) && ProcOk(store, p)
    ensures var o := Step(store, pid, p, reply); CodesOk(o.store.codes, o.store.apps)
  {
    hide Extends;
    StepExtends(store, pid, p, reply);
    if !p.InsertCode? { CodesStay(store, Step(store, pid, p, reply).store); }
  }

  lemma NextOk(store: Store, pid: nat, p: Proc, reply: Reply)
    requires Fresh(store) && CodesOk(store.codes, store.apps) && TokensOk(store) && ProcOk(store, p)
    ensures var o := Step(store, pid, p, reply); o.next.Continue? ==> ProcOk(o.store, o.next.p)
  {
    hide Extends, Fresh;
    var o := Step(store, pid, p, reply);
    match p
    case FindForConsent(_, _, _, _) =>
    case Authenticate(_, _, grant) =>
    case Consume(client, app, code, uri) =>
    case FindToken(app, token) =>
    case RevokeOld(app, token, user, code) => if token in store.tokens { assert TokenOk(store, store.tokens[token]); }
    case _ =>
  }

  // --- Every interleaving ---------------------------------------------------------------

  ghost predicate Unused(tokens: Tokens, procs: map<nat, Proc>, code: Id) {
    && (forall t :: t in tokens ==> DirectCode(tokens[t]) != Some(code))
    && (forall p :: p in procs ==> HeldCode(procs[p]) != Some(code))
  }

  /** A code still marked unused has no token and no holder. */
  lemma FreshCodeUnused(store: Store, procs: map<nat, Proc>, code: Id)
    requires TokensOk(store) && ProcsOk(store, procs) && code in store.codes && !store.codes[code].used
    ensures Unused(store.tokens, procs, code)
  {
    forall t | t in store.tokens
      ensures DirectCode(store.tokens[t]) != Some(code)
    {
      assert TokenOk(store, store.tokens[t]);
    }
    forall p | p in procs
      ensures HeldCode(procs[p]) != Some(code)
    {
      assert ProcOk(store, procs[p]);
    }
  }

  /** Changing only the revocation of tokens, and moving one request to an await that holds no new code. */
  lemma ExchangeStays(tokens: Tokens, after: Tokens, procs: map<nat, Proc>, next: map<nat, Proc>, pid: nat)
    requires OneExchange(tokens, procs) && TokensExtend(tokens, after) && after.Keys == tokens.Keys
    requires next.Keys <= procs.Keys
    requires forall p :: p in next && p != pid ==> next[p] == procs[p]
    requires pid in next ==> HeldCode(next[pid]).None? || Unused(tokens, procs, next[pid].code)
    ensures OneExchange(after, next)
  {
  }

  lemma IssueStays(tokens: Tokens, id: Id, t: Token, procs: map<nat, Proc>, pid: nat)
    requires OneExchange(tokens, procs) && id !in tokens && pid in procs && HeldCode(procs[pid]) == DirectCode(t)
    ensures OneExchange(tokens[id := t], procs - {pid})
  {
  }

  lemma ActKeepsExchange(w: World, pid: nat, reply: Reply)
    requires WorldOk(w) && pid in w.procs
    ensures var after := Apply(w, Act(pid, reply)); OneExchange(after.store.tokens, after.procs)
  {
    hide OneExchange, Unused, Extends, CodesOk, Authenticated, Consent, MayRevoke, FreshApps, RevokeTokensOf;
    hide RevokeToken;
    var p := w.procs[pid];
    var o := Step(w.store, pid, p, reply);
    StepExtends(w.store, pid, p, reply);
    ExtendsTokens(w.store, o.store);
    var after := Apply(w, Act(pid, reply));
    if p.Issue? && reply != Fail(false) {
      IssueStays(w.store.tokens, w.store.issued, Token(p.app, p.user, false, p.code, p.origin, pid), w.procs, pid);
    } else {
      if o.next.Continue? && HeldCode(o.next.p).Some? {
        HeldAfterConsume(w.store, pid, p, reply);
        FreshCodeUnused(w.store, w.procs, p.code);
      }
      ExchangeStays(w.store.tokens, after.store.tokens, w.procs, after.procs, pid);
    }
  }

  lemma ExtendsTokens(store: Store, after: Store)
    requires Extends(store, after)
    ensures TokensExtend(store.tokens, after.tokens)
  {
  }

  /** Only consuming a code that was unused makes a request hold it. */
  lemma HeldAfterConsume(store: Store, pid: nat, p: Proc, reply: Reply)
    requires var o := Step(store, pid, p, reply); o.next.Continue? && HeldCode(o.next.p).Some?
    ensures p.Consume? && p.code in store.codes && !store.codes[p.code].used
            && HeldCode(Step(store, pid, p, reply).next.p) == Some(p.code)
            && Step(store, pid, p, reply).store.tokens == store.tokens
  {
  }

  lemma ActKeepsIssuers(w: World, pid: nat, reply: Reply)
    requires WorldOk(w) && pid in w.procs
    ensures IssuersBegun(Apply(w, Act(pid, reply)).store.tokens, w.nextPid)
  {
    hide OneExchange, CodesOk, TokensOk, ProcOk, Extends, Step;
    var after := Step(w.store, pid, w.procs[pid], reply).store;
    forall t | t in after.tokens
      ensures after.tokens[t].issuer < w.nextPid
    {
      NewTokenIsIssued(w.store, pid, w.procs[pid], reply, t);
    }
  }

  lemma ActKeepsWorld(w: World, pid: nat, reply: Reply)
    requires WorldOk(w) && pid in w.procs
    ensures WorldOk(Apply(w, Act(pid, reply)))
  {
    hide OneExchange, Fresh, CodesOk, TokensOk, ProcOk, Extends, Step, IssuersBegun;
    var p := w.procs[pid];
    var after := Apply(w, Act(pid, reply));
    assert ProcOk(w.store, p);
    StepExtends(w.store, pid, p, reply);
    StepFresh(w.store, pid, p, reply);
    StepKeepsCodes(w.store, pid, p, reply);
    StepKeepsTokens(w.store, pid, p, reply);
    NextOk(w.store, pid, p, reply);
    ActKeepsExchange(w, pid, reply);
    ActKeepsIssuers(w, pid, reply);
    forall q | q in after.procs
      ensures ProcOk(after.store, after.procs[q])
    {
      if q != pid { ProcStays(w.store, after.store, w.procs[q]); }
    }
  }

  lemma StartOk(store: Store, req: Request)
    ensures Start(req).Continue? ==> ProcOk(store, Start(req).p) && HeldCode(Start(req).p).None?
  {
  }

  lemma BeginKeepsWorld(w: World, req: Request)
    requires WorldOk(w)
    ensures WorldOk(Apply(w, Begin(req)))
  {
    hide Fresh, CodesOk, TokensOk, ProcOk, Start;
    StartOk(w.store, req);
  }

  lemma DropKeepsWorld(w: World, pid: nat)
    requires WorldOk(w)
    ensures WorldOk(Apply(w, Drop(pid)))
  {
    hide Fresh, CodesOk, TokensOk, ProcOk;
  }

  lemma TickKeepsWorld(w: World)
    requires WorldOk(w)
    ensures WorldOk(Apply(w, Tick)) && Extends(w.store, Apply(w, Tick).store)
  {
    hide OneExchange, FreshApps, CodesOk, Descends;
    var after := Apply(w, Tick);
    Reflexive(w.store);
    TokensStay(w.store, after.store);
    forall q | q in w.procs
      ensures ProcOk(after.store, w.procs[q])
    {
      ProcStays(w.store, after.store, w.procs[q]);
    }
  }

  lemma ApplyKeepsWorld(w: World, e: Event)
    requires WorldOk(w)
    ensures WorldOk(Apply(w, e)) && Extends(w.store, Apply(w, e).store)
  {
    hide WorldOk, Extends, Step;
    Reflexive(w.store);
    match e
    case Begin(req) => BeginKeepsWorld(w, req);
    case Act(pid, reply) =>
      if pid in w.procs {
        ActKeepsWorld(w, pid, reply);
        StepExtends(w.store, pid, w.procs[pid], reply) by { WorldFresh(w); }
      }
    case Drop(pid) => DropKeepsWorld(w, pid);
    case Tick => TickKeepsWorld(w);
  }

  lemma WorldFresh(w: World)
    requires WorldOk(w)
    ensures Fresh(w.store)
  {
  }

  lemma ExtendsTransitive(a: Store, b: Store, c: Store)
    requires Extends(a, b) && Extends(b, c)
    ensures Extends(a, c)
  {
  }

  lemma {:induction false} RunKeepsWorld(w: World, es: seq<Event>)
    requires WorldOk(w)
    ensures WorldOk(Run(w, es)) && Extends(w.store, Run(w, es).store)
  {
    hide WorldOk, Extends, Apply;
    if es == [] {
      Reflexive(w.store);
    } else {
      var before := Run(w, es[..|es| - 1]);
      RunKeepsWorld(w, es[..|es| - 1]);
      ApplyKeepsWorld(before, es[|es| - 1]);
      ExtendsTransitive(w.store, before.store, Run(w, es).store);
    }
  }

  lemma InitOk()
    ensures WorldOk(INIT)
  {
  }

  /**
   * In every interleaving, each code is exchanged for at most one refresh token, and only by a request of the client and
   * with the redirect URI the code was issued to; every token rotated from it keeps the code's app and user.
   */
  lemma CodeYieldsOneToken(es: seq<Event>, s: Id, t: Id)
    requires s in Run(INIT, es).store.tokens && t in Run(INIT, es).store.tokens
    ensures var store := Run(INIT, es).store; var a := store.tokens[s];
            && a.code in store.codes && store.codes[a.code].used
            && a.app == store.codes[a.code].app && a.user == store.codes[a.code].user && a.app in store.apps
            && (a.origin.Exchanged? ==>
                  a.origin.uri == store.codes[a.code].uri && a.origin.client == store.apps[a.app].client)
    ensures var tokens := Run(INIT, es).store.tokens;
            tokens[s].origin.Exchanged? && tokens[t].origin.Exchanged? && tokens[s].code == tokens[t].code ==> s == t
  {
    hide Run;
    InitOk();
    RunKeepsWorld(INIT, es);
    var store := Run(INIT, es).store;
    assert TokenOk(store, store.tokens[s]);
    assert s != t && DirectCode(store.tokens[s]).Some? ==> DirectCode(store.tokens[s]) != DirectCode(store.tokens[t]);
  }

  /** In every interleaving, a revoked token stays revoked, and no token changes its app, user or code. */
  lemma RevokedForever(es: seq<Event>, more: seq<Event>, t: Id)
    requires t in Run(INIT, es).store.tokens
    ensures var before, after := Run(INIT, es).store.tokens, Run(Run(INIT, es), more).store.tokens;
            && t in after && after[t].(revoked := before[t].revoked) == before[t]
            && (before[t].revoked ==> after[t].revoked)
  {
    hide Run, WorldOk;
    InitOk();
    RunKeepsWorld(INIT, es);
    RunKeepsWorld(Run(INIT, es), more);
  }

  // --- A deleted app --------------------------------------------------------------------

  /** The app a token request has authenticated as. */
  ghost function ActsFor(p: Proc): Option<Id> {
    match p
    case Consume(_, app, _, _) => Some(app)
    case FindToken(app, _) => Some(app)
    case RevokeOld(app, _, _, _) => Some(app)
    case Issue(app, _, _, _) => Some(app)
    case _ => None
  }

  /** The app is revoked, and no request begun at or after `from` acts for it or has issued a token of it. */
  ghost predicate ShutOut(w: World, app: Id, from: nat) {
    && app in w.store.apps && w.store.apps[app].revoked && from <= w.nextPid
    && (forall p :: p in w.procs && p >= from ==> ActsFor(w.procs[p]) != Some(app))
    && (forall t :: t in w.store.tokens && w.store.tokens[t].app == app ==> w.store.tokens[t].issuer < from)
  }

  /** A request acts for an app only after finding it not revoked; it keeps acting for the same app. */
  lemma ActingNeedsLiveApp(store: Store, pid: nat, p: Proc, reply: Reply, app: Id)
    requires var o := Step(store, pid, p, reply); o.next.Continue? && ActsFor(o.next.p) == Some(app)
    ensures ActsFor(p) == Some(app) || (app in store.apps && !store.apps[app].revoked)
  {
  }

  lemma ApplyKeepsShutOut(w: World, e: Event, app: Id, from: nat)
    requires WorldOk(w) && ShutOut(w, app, from)
    ensures ShutOut(Apply(w, e), app, from)
  {
    hide WorldOk, Step;
    match e
    case Begin(req) => StartActsForNone(req);
    case Act(pid, reply) =>
      if pid in w.procs {
        var p := w.procs[pid];
        var o := Step(w.store, pid, p, reply);
        WorldFresh(w);
        StepExtends(w.store, pid, p, reply);
        if o.next.Continue? && ActsFor(o.next.p) == Some(app) { ActingNeedsLiveApp(w.store, pid, p, reply, app); }
        forall t | t in o.store.tokens && o.store.tokens[t].app == app
          ensures o.store.tokens[t].issuer < from
        {
          NewTokenIsIssued(w.store, pid, p, reply, t);
        }
      }
    case Drop(_) =>
    case Tick =>
  }

  lemma StartActsForNone(req: Request)
    ensures Start(req).Continue? ==> ActsFor(Start(req).p).None?
  {
  }

  lemma NewTokenIsIssued(store: Store, pid: nat, p: Proc, reply: Reply, t: Id)
    requires Fresh(store) && t in Step(store, pid, p, reply).store.tokens
    ensures var row := Step(store, pid, p, reply).store.tokens[t];
            if t in store.tokens then row.app == store.tokens[t].app && row.issuer == store.tokens[t].issuer
            else ActsFor(p) == Some(row.app) && row.issuer == pid
  {
  }

  lemma {:induction false} RunKeepsShutOut(w: World, es: seq<Event>, app: Id, from: nat)
    requires WorldOk(w) && ShutOut(w, app, from)
    ensures ShutOut(Run(w, es), app, from)
  {
    hide WorldOk, ShutOut, Apply;
    if es != [] {
      RunKeepsShutOut(w, es[..|es| - 1], app, from);
      RunKeepsWorld(w, es[..|es| - 1]);
      ApplyKeepsShutOut(Run(w, es[..|es| - 1]), es[|es| - 1], app, from);
    }
  }

  /** Every token of a revoked app comes from a request begun before the app was revoked. */
  lemma RevokedIsShutOut(w: World, app: Id)
    requires WorldOk(w) && app in w.store.apps && w.store.apps[app].revoked
    ensures ShutOut(w, app, w.nextPid)
  {
    hide Fresh, CodesOk, TokensOk, ProcsOk, OneExchange;
  }

  /**
   * Once an app is revoked, in every continuation of every interleaving no token of that app comes from a request
   * begun afterwards.
   */
  lemma RevokedAppIssuesNothing(es: seq<Event>, more: seq<Event>, app: Id, t: Id)
    requires app in Run(INIT, es).store.apps && Run(INIT, es).store.apps[app].revoked
    requires t in Run(Run(INIT, es), more).store.tokens && Run(Run(INIT, es), more).store.tokens[t].app == app
    ensures Run(Run(INIT, es), more).store.tokens[t].issuer < Run(INIT, es).nextPid
  {
    hide Run, WorldOk;
    var w := Run(INIT, es);
    InitOk();
    RunKeepsWorld(INIT, es);
    RevokedIsShutOut(w, app);
    RunKeepsShutOut(w, more, app, w.nextPid);
  }

  /** The await at which a request about to answer that the app is deleted stands. */
  ghost predicate Deleting(w: World, pid: nat, app: Id) { pid in w.procs && w.procs[pid] == RevokeApp(app) }

  /**
   * In every interleaving, when a delete request returns success its app is revoked, so no request begun after that
   * return ever stores a token of the app.
   */
  lemma DeletedAppIssuesNothing(es: seq<Event>, pid: nat, more: seq<Event>, app: Id, t: Id)
    requires Deleting(Run(INIT, es), pid, app)
    ensures var w := Run(INIT, es); Step(w.store, pid, w.procs[pid], Done).next == Return(Success)
    ensures var deleted := Apply(Run(INIT, es), Act(pid, Done)); var later := Run(deleted, more);
            t in later.store.tokens && later.store.tokens[t].app == app ==> later.store.tokens[t].issuer < deleted.nextPid
  {
    hide Run, WorldOk, Apply, Fresh;
    var w := Run(INIT, es);
    InitOk();
    RunKeepsWorld(INIT, es);
    DeleteRevokes(w, pid, app);
    var deleted := Apply(w, Act(pid, Done));
    ApplyKeepsWorld(w, Act(pid, Done));
    RevokedIsShutOut(deleted, app);
    RunKeepsShutOut(deleted, more, app, deleted.nextPid);
  }

  lemma DeleteRevokes(w: World, pid: nat, app: Id)
    requires WorldOk(w) && Deleting(w, pid, app)
    ensures var o := Step(w.store, pid, w.procs[pid], Done);
            o.next == Return(Success) && Apply(w, Act(pid, Done)).store == o.store && app in o.store.apps && o.store.apps[app].revoked
  {
    hide Fresh, CodesOk, TokensOk, OneExchange;
    assert ProcOk(w.store, w.procs[pid]);
  }
}
