/** When rotation keeps one live token per code although requests interleave, and when it does not. */
module OAuthRotation {
  import opened Basics
  import opened OAuthSteps
  import opened OAuthSafety
  import opened OAuthLive

  // --- One unit per code --------------------------------------------------------------------

  /** What may become, or is, a live token of a code. */
  datatype Unit = Stored(token: Id) | Pending(pid: nat)

  /** A live token, a request about to store one, or a request rotating a token that is revoked already. */
  ghost predicate IsUnit(tokens: Tokens, procs: map<nat, Proc>, u: Unit, code: Id) {
    match u
    case Stored(t) => t in tokens && tokens[t].code == code && !tokens[t].revoked
    case Pending(pid) => pid in procs && IsPending(tokens, procs[pid], code)
  }

  ghost predicate IsPending(tokens: Tokens, p: Proc, code: Id) {
    (p.Issue? && p.code == code) || (p.RevokeOld? && p.code == code && p.token in tokens && tokens[p.token].revoked)
  }

  ghost predicate OneUnit(tokens: Tokens, procs: map<nat, Proc>) {
    forall u, v, code :: IsUnit(tokens, procs, u, code) && IsUnit(tokens, procs, v, code) ==> u == v
  }

  /** No two requests have found the same token unrevoked and are about to revoke it. */
  ghost predicate SingleRotations(procs: map<nat, Proc>) {
    forall p, q :: p in procs && q in procs && p != q && procs[p].RevokeOld? && procs[q].RevokeOld? ==>
      procs[p].token != procs[q].token
  }

  /** What one await does to tokens and to its own request, as far as units go. */
  ghost predicate UnitsMove(store: Store, p: Proc, o: Outcome) {
    && TokensExtend(store.tokens, o.store.tokens)
    && (forall t :: t in o.store.tokens && t !in store.tokens ==>
          && p.Issue? && o.store.tokens[t].code == p.code && o.next.Return?
          && o.store.tokens.Keys == store.tokens.Keys + {t})
    && (o.next.Continue? && o.next.p.Issue? ==>
          && o.store.tokens.Keys == store.tokens.Keys
          && ((p.Consume? && o.next.p.code in store.codes && !store.codes[o.next.p.code].used)
              || (p.RevokeOld? && o.next.p.code == p.code && (p.token in o.store.tokens ==> o.store.tokens[p.token].revoked))))
    && (o.next.Continue? && o.next.p.RevokeOld? ==>
          o.next.p.token in o.store.tokens && !o.store.tokens[o.next.p.token].revoked)
  }

  lemma StepMovesUnits(store: Store, pid: nat, p: Proc, reply: Reply)
    requires Fresh(store)
    ensures UnitsMove(store, p, Step(store, pid, p, reply))
  {
    hide TokensExtend, Fresh, Extends, Authenticated, Consent, MayRevoke, RevokeTokensOf, RevokeAppRow;
    StepExtends(store, pid, p, reply);
    ExtendsTokens(store, Step(store, pid, p, reply).store);
    if p.FindForConsent? { ConsentReady(store, p); }
    if p.Authenticate? { AuthenticatedReady(store, p); }
    if p.AuthenticateRevoke? { MayRevokeReady(store, p); }
  }

  /** A code still marked unused has no units. */
  lemma UnusedHasNoUnits(w: World, u: Unit, code: Id)
    requires WorldOk(w) && code in w.store.codes && !w.store.codes[code].used
    ensures !IsUnit(w.store.tokens, w.procs, u, code)
  {
    hide Fresh, OneExchange, CodesOk;
    match u
    case Stored(t) => if t in w.store.tokens { assert TokenOk(w.store, w.store.tokens[t]); }
    case Pending(pid) =>
      if pid in w.procs {
        var p := w.procs[pid];
        assert ProcOk(w.store, p);
        if p.RevokeOld? { assert TokenOk(w.store, w.store.tokens[p.token]); }
      }
  }

  /** The unit a unit was before the await. */
  ghost function Before(w: World, pid: nat, u: Unit): Unit {
    match u
    case Stored(t) => if t in w.store.tokens then u else Pending(pid)
    case Pending(q) =>
      if q in w.procs && w.procs[q].RevokeOld? && w.procs[q].token in w.store.tokens && !w.store.tokens[w.procs[q].token].revoked
      then Stored(w.procs[q].token) else u
  }

  ghost predicate Consuming(w: World, pid: nat, u: Unit) { u == Pending(pid) && pid in w.procs && w.procs[pid].Consume? }

  /** Each unit comes from a unit, unless it comes from an unused code just consumed. */
  lemma UnitWasUnit(w: World, pid: nat, reply: Reply, u: Unit, code: Id)
    requires WorldOk(w) && pid in w.procs
    requires var after := Apply(w, Act(pid, reply)); IsUnit(after.store.tokens, after.procs, u, code)
    ensures Consuming(w, pid, u) ==> code in w.store.codes && !w.store.codes[code].used
    ensures !Consuming(w, pid, u) ==> IsUnit(w.store.tokens, w.procs, Before(w, pid, u), code)
  {
    hide Step, Fresh, OneExchange, CodesOk, TokensOk;
    var p := w.procs[pid];
    StepMovesUnits(w.store, pid, p, reply) by { WorldFresh(w); }
    assert ProcOk(w.store, p);
    if u.Pending? && u.pid in w.procs { assert ProcOk(w.store, w.procs[u.pid]); }
  }

  /** Different units come from different units, as long as no two requests rotate the same token. */
  lemma UnitsStayApart(w: World, pid: nat, reply: Reply, u: Unit, v: Unit, code: Id)
    requires WorldOk(w) && pid in w.procs && SingleRotations(w.procs) && u != v
    requires var after := Apply(w, Act(pid, reply));
             IsUnit(after.store.tokens, after.procs, u, code) && IsUnit(after.store.tokens, after.procs, v, code)
    ensures Before(w, pid, u) != Before(w, pid, v)
  {
    hide Step, Fresh, OneExchange, CodesOk, TokensOk, ProcsOk;
    StepMovesUnits(w.store, pid, w.procs[pid], reply) by { WorldFresh(w); }
  }

  lemma ActKeepsOneUnit(w: World, pid: nat, reply: Reply)
    requires WorldOk(w) && pid in w.procs && SingleRotations(w.procs) && OneUnit(w.store.tokens, w.procs)
    ensures var after := Apply(w, Act(pid, reply)); OneUnit(after.store.tokens, after.procs)
  {
    hide IsUnit, Before, WorldOk, SingleRotations, Apply;
    var after := Apply(w, Act(pid, reply));
    forall u, v, code | IsUnit(after.store.tokens, after.procs, u, code) && IsUnit(after.store.tokens, after.procs, v, code)
      ensures u == v
    {
      UnitWasUnit(w, pid, reply, u, code);
      UnitWasUnit(w, pid, reply, v, code);
      if u != v {
        UnitsStayApart(w, pid, reply, u, v, code);
        if Consuming(w, pid, u) {
          UnusedHasNoUnits(w, Before(w, pid, v), code);
        } else if Consuming(w, pid, v) {
          UnusedHasNoUnits(w, Before(w, pid, u), code);
        }
      }
    }
  }

  lemma OthersKeepOneUnit(w: World, e: Event)
    requires OneUnit(w.store.tokens, w.procs) && !e.Act? && WorldOk(w)
    ensures OneUnit(Apply(w, e).store.tokens, Apply(w, e).procs)
  {
    hide Fresh, OneExchange, CodesOk, TokensOk, ProcsOk;
    var after := Apply(w, e);
    forall u, code | IsUnit(after.store.tokens, after.procs, u, code)
      ensures IsUnit(w.store.tokens, w.procs, u, code)
    {
      if e.Begin? { StartReady(w.store.tokens, e.req); StartIsNoUnit(w.store.tokens, e.req, code); }
    }
  }

  lemma StartIsNoUnit(tokens: Tokens, req: Request, code: Id)
    ensures Start(req).Continue? ==> !IsPending(tokens, Start(req).p, code)
  {
  }

  /** At every point before the last event, no two requests rotate the same token. */
  ghost predicate NeverDouble(es: seq<Event>) { forall i :: 0 <= i < |es| ==> SingleRotations(Run(INIT, es[..i]).procs) }

  lemma {:induction false} RunKeepsOneUnit(es: seq<Event>)
    requires NeverDouble(es)
    ensures OneUnit(Run(INIT, es).store.tokens, Run(INIT, es).procs)
  {
    hide Apply, OneUnit, WorldOk, SingleRotations;
    if es == [] {
      InitHasNoUnits();
    } else {
      var k := |es| - 1;
      var prefix, e := es[..k], es[k];
      assert forall i :: 0 <= i < k ==> prefix[..i] == es[..i];
      RunKeepsOneUnit(prefix);
      InitOk();
      RunKeepsWorld(INIT, prefix);
      var w := Run(INIT, prefix);
      if e.Act? && e.pid in w.procs {
        ActKeepsOneUnit(w, e.pid, e.reply);
      } else if e.Act? {
        IdleAct(w, e);
      } else {
        OthersKeepOneUnit(w, e);
      }
    }
  }

  lemma IdleAct(w: World, e: Event)
    requires e.Act? && e.pid !in w.procs
    ensures Apply(w, e) == w
  {
  }

  lemma InitHasNoUnits()
    ensures OneUnit(INIT.store.tokens, INIT.procs)
  {
  }

  /**
   * In every interleaving in which no two requests ever stand between finding and revoking the same token, at most one
   * unrevoked token descends from each code.
   */
  lemma OneLiveUnlessDouble(es: seq<Event>, code: Id)
    requires NeverDouble(es)
    ensures |Live(Run(INIT, es).store.tokens, code)| <= 1
  {
    hide Run, SingleRotations;
    RunKeepsOneUnit(es);
    var w := Run(INIT, es);
    var live := Live(w.store.tokens, code);
    if t :| t in live {
      assert IsUnit(w.store.tokens, w.procs, Stored(t), code);
      forall s | s in live
        ensures s == t
      {
        assert IsUnit(w.store.tokens, w.procs, Stored(s), code);
      }
      assert live == {t};
    }
  }

  /** The refresh token an in-flight refresh request was given. */
  ghost function Presented(p: Proc): Option<Id> {
    match p
    case Authenticate(_, _, ByToken(token)) => token
    case FindToken(_, token) => Some(token)
    case RevokeOld(_, token, _, _) => Some(token)
    case Issue(_, _, _, Rotated(token)) => Some(token)
    case _ => None
  }

  /** No two refresh requests in flight present the same refresh token. */
  ghost predicate TokensApart(procs: map<nat, Proc>) {
    forall p, q :: p in procs && q in procs && p != q && Presented(procs[p]).Some? ==> Presented(procs[p]) != Presented(procs[q])
  }

  /**
   * In every interleaving in which no client presents a refresh token while a refresh with that same token is in flight,
   * at most one unrevoked token descends from each code; all other requests may overlap freely.
   */
  lemma OneLiveIfPresentedOnce(es: seq<Event>, code: Id)
    requires forall i :: 0 <= i < |es| ==> TokensApart(Run(INIT, es[..i]).procs)
    ensures |Live(Run(INIT, es).store.tokens, code)| <= 1
  {
    hide Run, TokensApart, SingleRotations, Live;
    forall i | 0 <= i < |es|
      ensures SingleRotations(Run(INIT, es[..i]).procs)
    {
      ApartIsSingle(Run(INIT, es[..i]).procs);
    }
    OneLiveUnlessDouble(es, code);
  }

  lemma ApartIsSingle(procs: map<nat, Proc>)
    requires TokensApart(procs)
    ensures SingleRotations(procs)
  {
  }

  // --- Two rotations of one token -------------------------------------------------------------

  lemma RunOne(w: World, es: seq<Event>, e: Event)
    ensures Run(w, es + [e]) == Apply(Run(w, es), e)
  {
    hide Apply;
    assert (es + [e])[..|es|] == es;
  }

  lemma {:induction false} RunConcat(w: World, es: seq<Event>, more: seq<Event>)
    ensures Run(w, es + more) == Run(Run(w, es), more)
  {
    hide Apply;
    if more == [] {
      assert es + more == es;
    } else {
      var k := |more| - 1;
      RunConcat(w, es, more[..k]);
      assert es + more == (es + more[..k]) + [more[k]];
      RunOne(w, es + more[..k], more[k]);
    }
  }

  /** The same token is presented by two requests, whose awaits alternate. */
  function RefreshTwice(req: Request, p: nat, q: nat): seq<Event> {
    [Begin(req), Begin(req), Act(p, Done), Act(q, Done), Act(p, Done), Act(q, Done),
     Act(p, Done), Act(q, Done), Act(p, Done), Act(q, Done)]
  }

  lemma RunStep(w: World, es: seq<Event>)
    requires es != []
    ensures Run(w, es) == Run(Apply(w, es[0]), es[1..])
  {
    hide Apply;
    assert es == [es[0]] + es[1..];
    RunConcat(w, [es[0]], es[1..]);
    RunOne(w, [], es[0]);
  }

  lemma RunTwo(w: World, a: Event, b: Event, es: seq<Event>)
    ensures Run(w, [a, b] + es) == Run(Apply(Apply(w, a), b), es)
  {
    hide Run, Apply;
    RunStep(w, [a, b] + es);
    assert ([a, b] + es)[1..] == [b] + es;
    RunStep(Apply(w, a), [b] + es);
    assert ([b] + es)[1..] == es;
  }

  /** Both requests make the same step, which reads only. */
  lemma BothRead(w: World, p: nat, q: nat, now: Proc, later: Proc)
    requires p != q && w.procs == map[p := now, q := now]
    requires forall pid :: Step(w.store, pid, now, Done) == Outcome(w.store, Continue(later))
    ensures Apply(Apply(w, Act(p, Done)), Act(q, Done)) == w.(procs := map[p := later, q := later])
  {
    hide Step;
  }

  ghost predicate MayRotate(store: Store, client: Id, secret: Id, app: Id, token: Id) {
    && Authentic(store, client, secret, app)
    && token in store.tokens && store.tokens[token].app == app && !store.tokens[token].revoked
  }

  /** Both requests find the token unrevoked before either revokes it. */
  lemma BothFind(w: World, client: Id, secret: Id, app: Id, token: Id)
    requires WorldOk(w) && w.procs == map[] && MayRotate(w.store, client, secret, app, token)
    ensures var p, q := w.nextPid, w.nextPid + 1; var row := w.store.tokens[token];
            var next := RevokeOld(app, token, row.user, row.code);
            Run(w, RefreshTwice(Refresh(client, secret, Some(token)), p, q)) ==
            Run(World(w.store, map[p := next, q := next], q + 1), [Act(p, Done), Act(q, Done), Act(p, Done), Act(q, Done)])
  {
    hide Run, WorldOk, Step;
    var p, q := w.nextPid, w.nextPid + 1;
    var req := Refresh(client, secret, Some(token));
    var row := w.store.tokens[token];
    var rest := [Act(p, Done), Act(q, Done), Act(p, Done), Act(q, Done)];
    var a := Authenticate(client, secret, ByToken(Some(token)));
    var f := FindToken(app, token);
    var n := RevokeOld(app, token, row.user, row.code);
    var rest2 := [Act(p, Done), Act(q, Done)] + rest;
    var rest4 := [Act(p, Done), Act(q, Done)] + rest2;
    assert RefreshTwice(req, p, q) == [Begin(req), Begin(req)] + rest4;
    RunTwo(w, Begin(req), Begin(req), rest4);
    var w2 := World(w.store, map[p := a, q := a], q + 1);
    assert Apply(Apply(w, Begin(req)), Begin(req)) == w2;
    hide Apply, Start;
    RunTwo(w2, Act(p, Done), Act(q, Done), rest2);
    ReadsForRefresh(w, client, secret, app, token);
    BothRead(w2, p, q, a, f);
    var w4 := w2.(procs := map[p := f, q := f]);
    RunTwo(w4, Act(p, Done), Act(q, Done), rest);
    BothRead(w4, p, q, f, n);
  }

  lemma ReadsForRefresh(w: World, client: Id, secret: Id, app: Id, token: Id)
    requires WorldOk(w) && MayRotate(w.store, client, secret, app, token)
    ensures forall pid :: Step(w.store, pid, Authenticate(client, secret, ByToken(Some(token))), Done)
                          == Outcome(w.store, Continue(FindToken(app, token)))
    ensures var row := w.store.tokens[token];
            forall pid :: Step(w.store, pid, FindToken(app, token), Done)
                          == Outcome(w.store, Continue(RevokeOld(app, token, row.user, row.code)))
  {
    hide CodesOk, TokensOk, ProcsOk, OneExchange, Below;
    assert FindClient(w.store.apps, client) == Some(app);
  }

  /** The next await of two requests in turn, twice. */
  function FinishBoth(p: nat, q: nat): seq<Event> { [Act(p, Done), Act(q, Done), Act(p, Done), Act(q, Done)] }

  /** A request revokes its token, already revoked or not, and goes on to issue a successor. */
  lemma RotationIssues(w: World, pid: nat)
    requires WorldOk(w) && pid in w.procs && w.procs[pid].RevokeOld?
    ensures var p, after := w.procs[pid], Apply(w, Act(pid, Done));
            after.procs == w.procs[pid := Issue(p.app, p.user, p.code, Rotated(p.token))]
            && after.store == w.store.(tokens := RevokeToken(w.store.tokens, p.token))
  {
    hide WorldOk, RevokeTokensOf, RevokeToken, RevokeAppRow, ConsumeCode, Authenticated, Consent, MayRevoke, Rotatable;
    hide OwnedThen, Exchange;
  }

  lemma IssueStores(w: World, pid: nat)
    requires pid in w.procs && w.procs[pid].Issue?
    ensures var p, after := w.procs[pid], Apply(w, Act(pid, Done));
            after.procs == w.procs - {pid}
            && after.store.tokens == w.store.tokens[w.store.issued := Token(p.app, p.user, false, p.code, p.origin, pid)]
            && after.store.issued == w.store.issued + 1
  {
    hide RevokeTokensOf, RevokeToken, RevokeAppRow, ConsumeCode, Authenticated, Consent, MayRevoke, Rotatable;
    hide OwnedThen, Exchange;
  }

  /** From every state in which two requests rotate the same token, letting both finish leaves two live tokens of its code. */
  lemma DoubleRotationForks(w: World, p: nat, q: nat)
    requires WorldOk(w) && p in w.procs && q in w.procs && p != q
    requires w.procs[p].RevokeOld? && w.procs[q].RevokeOld? && w.procs[p].token == w.procs[q].token
    ensures |Live(Run(w, FinishBoth(p, q)).store.tokens, w.procs[p].code)| >= 2
  {
    hide Run, Apply, WorldOk, RevokeToken;
    SameCode(w, p, q);
    assert FinishBoth(p, q) == [Act(p, Done), Act(q, Done)] + [Act(p, Done), Act(q, Done)];
    RunTwo(w, Act(p, Done), Act(q, Done), [Act(p, Done), Act(q, Done)]);
    var w1 := Apply(w, Act(p, Done));
    RotationIssues(w, p);
    ActKeepsWorld(w, p, Done);
    RotationIssues(w1, q);
    var w2 := Apply(w1, Act(q, Done));
    assert [Act(p, Done), Act(q, Done)] + [] == [Act(p, Done), Act(q, Done)];
    RunTwo(w2, Act(p, Done), Act(q, Done), []);
    IssueStores(w2, p);
    var w3 := Apply(w2, Act(p, Done));
    IssueStores(w3, q);
    var w4 := Apply(w3, Act(q, Done));
    RunNone(w4);
    var live, two := Live(w4.store.tokens, w.procs[p].code), {w.store.issued, w.store.issued + 1};
    assert two <= live && |two| == 2;
    Subset(two, live);
  }

  lemma SameCode(w: World, p: nat, q: nat)
    requires WorldOk(w) && p in w.procs && q in w.procs
    requires w.procs[p].RevokeOld? && w.procs[q].RevokeOld? && w.procs[p].token == w.procs[q].token
    ensures w.procs[p].code == w.procs[q].code
  {
    hide Fresh, OneExchange, CodesOk, TokensOk;
    assert ProcOk(w.store, w.procs[p]) && ProcOk(w.store, w.procs[q]);
  }

  lemma RunNone(w: World)
    ensures Run(w, []) == w
  {
  }

  /**
   * The condition is needed: from every quiet state in which a client may rotate a token, presenting it twice at the same
   * time leaves two unrevoked tokens of its code.
   */
  lemma ConcurrentRefreshesFork(w: World, client: Id, secret: Id, app: Id, token: Id)
    requires WorldOk(w) && w.procs == map[] && MayRotate(w.store, client, secret, app, token)
    ensures var code := w.store.tokens[token].code;
            var after := Run(w, RefreshTwice(Refresh(client, secret, Some(token)), w.nextPid, w.nextPid + 1));
            |Live(after.store.tokens, code)| >= 2
  {
    hide Run, Step, Live, WorldOk;
    BothFind(w, client, secret, app, token);
    var p, q := w.nextPid, w.nextPid + 1;
    var row := w.store.tokens[token];
    var n := RevokeOld(app, token, row.user, row.code);
    var forked := World(w.store, map[p := n, q := n], q + 1);
    FoundIsOk(w, app, token);
    DoubleRotationForks(forked, p, q);
  }

  lemma FoundIsOk(w: World, app: Id, token: Id)
    requires WorldOk(w) && w.procs == map[] && token in w.store.tokens && w.store.tokens[token].app == app
    ensures var row := w.store.tokens[token]; var n := RevokeOld(app, token, row.user, row.code);
            WorldOk(World(w.store, map[w.nextPid := n, w.nextPid + 1 := n], w.nextPid + 2))
  {
    hide Fresh, CodesOk, TokensOk;
  }

  // --- Such a run from the start ------------------------------------------------------------------

  /** An app is registered, a user consents and the client exchanges the code. */
  function ObtainToken(uri: string): seq<Event> {
    [Begin(CreateApp(7, true, Profile("app", None, {uri}))), Act(0, Done),
     Begin(Authorize(1, uri, true, 9)), Act(1, Done), Act(1, Done),
     Begin(ExchangeCode(1, 2, Some(3), Some(uri))), Act(2, Done), Act(2, Done), Act(2, Done)]
  }

  function OneApp(uri: string): Store { Store(map[0 := App(1, 7, 2, Profile("app", None, {uri}), false)], map[], map[], 0, 3) }

  function OneCode(uri: string, used: bool): Store {
    OneApp(uri).(codes := map[3 := Code(0, 9, uri, CODE_LIFETIME, used)], issued := 4)
  }

  lemma OnlyApp(uri: string)
    ensures FindClient(OneApp(uri).apps, 1) == Some(0)
  {
    var apps := OneApp(uri).apps;
    assert 0 in apps && apps[0].client == 1;
    var found := FindClient(apps, 1);
    assert found.Some? && found.value in apps;
  }

  lemma AppRegistered(uri: string)
    ensures Run(INIT, ObtainToken(uri)[..2]) == World(OneApp(uri), map[], 1)
  {
    hide Run;
    var es := ObtainToken(uri);
    RunNone(INIT);
    assert es[..1] == [] + [es[0]] && es[..2] == es[..1] + [es[1]];
    RunOne(INIT, [], es[0]);
    RunOne(INIT, es[..1], es[1]);
    var w1 := World(INIT.store, map[0 := InsertApp(7, Profile("app", None, {uri}))], 1);
    assert Apply(INIT, es[0]) == w1;
  }

  lemma CodeIssued(uri: string)
    ensures Run(INIT, ObtainToken(uri)[..5]) == World(OneCode(uri, false), map[], 2)
  {
    hide Run, FindClient;
    var es := ObtainToken(uri);
    AppRegistered(uri);
    OnlyApp(uri);
    assert es[..3] == es[..2] + [es[2]] && es[..4] == es[..3] + [es[3]] && es[..5] == es[..4] + [es[4]];
    RunOne(INIT, es[..2], es[2]);
    RunOne(INIT, es[..3], es[3]);
    RunOne(INIT, es[..4], es[4]);
    var w3 := World(OneApp(uri), map[1 := FindForConsent(1, uri, true, 9)], 2);
    assert Run(INIT, es[..3]) == w3;
    var w4 := World(OneApp(uri), map[1 := InsertCode(0, 9, uri)], 2);
    assert Apply(w3, es[3]) == w4;
  }

  lemma ClientAuthenticated(uri: string)
    ensures Run(INIT, ObtainToken(uri)[..7]) == World(OneCode(uri, false), map[2 := Consume(1, 0, 3, uri)], 3)
  {
    hide Run, FindClient;
    var es := ObtainToken(uri);
    CodeIssued(uri);
    OnlyApp(uri);
    assert es[..6] == es[..5] + [es[5]] && es[..7] == es[..6] + [es[6]];
    RunOne(INIT, es[..5], es[5]);
    RunOne(INIT, es[..6], es[6]);
    var w6 := World(OneCode(uri, false), map[2 := Authenticate(1, 2, ByCode(Some(3), Some(uri)))], 3);
    assert Run(INIT, es[..6]) == w6;
  }

  lemma TokenIssued(uri: string)
    ensures var w := Run(INIT, ObtainToken(uri)); w.procs == map[] && w.nextPid == 3 && MayRotate(w.store, 1, 2, 0, 4)
  {
    hide Run, FindClient;
    var es := ObtainToken(uri);
    ClientAuthenticated(uri);
    assert es[..8] == es[..7] + [es[7]] && es == es[..8] + [es[8]];
    RunOne(INIT, es[..7], es[7]);
    RunOne(INIT, es[..8], es[8]);
    var w8 := World(OneCode(uri, true), map[2 := Issue(0, 9, 3, Exchanged(1, uri))], 3);
    assert Run(INIT, es[..8]) == w8;
  }

  /** A run from the start with two live tokens of one code: the token just obtained is presented twice at the same time. */
  lemma ForkHappens(uri: string)
    ensures var es := ObtainToken(uri) + RefreshTwice(Refresh(1, 2, Some(4)), 3, 4);
            exists code :: |Live(Run(INIT, es).store.tokens, code)| >= 2
  {
    hide Run, Live, ObtainToken, RefreshTwice, WorldOk;
    TokenIssued(uri);
    InitOk();
    RunKeepsWorld(INIT, ObtainToken(uri));
    var w := Run(INIT, ObtainToken(uri));
    RunConcat(INIT, ObtainToken(uri), RefreshTwice(Refresh(1, 2, Some(4)), 3, 4));
    ConcurrentRefreshesFork(w, 1, 2, 0, 4);
  }
}
