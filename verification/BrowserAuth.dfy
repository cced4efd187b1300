/** The browser's shared token refresh and its authenticated fetches, over every order in which awaits resume. */
module BrowserAuth {
  import opened Basics

  type Id = nat
  type Token = string

  /** Where an outstanding refresh request stands; `token` is the refresh token it was started with. */
  datatype Flight = Fetching(token: Token) | Parsing(token: Token)

  datatype Promise = Pending(flight: Flight) | Settled(answer: bool)

  /** Where a call of `apiFetch` (or, for `AwaitDirect`, of `tryRefreshToken`) is suspended. */
  datatype Call =
    | AwaitProactive(p: Id, mutating: bool)
    | AwaitCsrf
    | AwaitResponse
    | AwaitRefresh(p: Id)
    | AwaitRetry
    | AwaitDirect(p: Id)
    | Finished

  /**
   * History: extra headers fetched for a call, requests sent for its path with the token they carry, their statuses, refresh answers told, refresh
   * requests, missing tokens.
   */
  datatype Entry =
    | Headers(call: Id)
    | Sent(call: Id, bearer: Option<Token>)
    | Got(call: Id, status: nat)
    | Told(call: Id, p: Id, answer: bool)
    | Asked(p: Id, token: Token)
    | Missed(p: Id)

  datatype Page = Page(access: Option<Token>, refresh: Option<Token>, shared: Option<Id>, promises: map<Id, Promise>,
                       calls: map<Id, Call>, next: Id, log: seq<Entry>)

  const INIT: Page := Page(None, None, None, map[], map[], 0, [])

  datatype RefreshOutcome = Accepted | Rejected | Broken

  datatype Event =
    | StartFetch(mutating: bool, expiring: bool)
    | StartRefresh
    | RefreshReply(p: Id, reply: RefreshOutcome)
    | RefreshBody(p: Id, access: Option<Token>)
    | Wake(call: Id)
    | Response(call: Id, status: Option<nat>)
    | Login(newAccess: Token, newRefresh: Token)
    | Logout

  // --- Operations -------------------------------------------------------------------------

  function StoreTokens(s: Page, access: Token, refresh: Token): Page { s.(access := Some(access), refresh := Some(refresh)) }

  function ClearTokens(s: Page): Page { s.(access := None, refresh := None) }

  /** The promise the caller waits for is `shared` afterwards; without a refresh token it is settled and stays shared. */
  function TryRefresh(s: Page): Page {
    if s.shared.Some? then s
    else
      var p := s.next;
      match s.refresh
      case None => s.(shared := Some(p), promises := s.promises[p := Settled(false)], next := p + 1, log := s.log + [Missed(p)])
      case Some(token) =>
        s.(shared := Some(p), promises := s.promises[p := Pending(Fetching(token))], next := p + 1, log := s.log + [Asked(p, token)])
  }

  /** `return` inside the `try`: the `finally` empties the shared promise before the answer is out. */
  function Settle(s: Page, p: Id, answer: bool): Page {
    s.(shared := None, promises := s.promises[p := Settled(answer)])
  }

  function OnReply(s: Page, p: Id, reply: RefreshOutcome): Page {
    if p !in s.promises || !s.promises[p].Pending? || !s.promises[p].flight.Fetching? then s
    else match reply
      case Accepted => s.(promises := s.promises[p := Pending(Parsing(s.promises[p].flight.token))])
      case Rejected => Settle(ClearTokens(s), p, false)
      case Broken => Settle(s, p, false)
  }

  function OnBody(s: Page, p: Id, access: Option<Token>): Page {
    if p !in s.promises || !s.promises[p].Pending? || !s.promises[p].flight.Parsing? then s
    else match access
      case None => Settle(s, p, false)
      case Some(a) => Settle(StoreTokens(s, a, s.promises[p].flight.token), p, true)
  }

  function Send(s: Page, id: Id, next: Call): Page { s.(calls := s.calls[id := next], log := s.log + [Sent(id, s.access)]) }

  /** After the proactive refresh: headers of a mutating request are awaited first. */
  function Prepare(s: Page, id: Id, mutating: bool): Page {
    if mutating then s.(calls := s.calls[id := AwaitCsrf]) else Send(s, id, AwaitResponse)
  }

  function Begin(s: Page, mutating: bool, expiring: bool): Page {
    var id, s := s.next, s.(next := s.next + 1);
    if s.access.None? || expiring then
      var s := TryRefresh(s);
      s.(calls := s.calls[id := AwaitProactive(s.shared.value, mutating)])
    else Prepare(s, id, mutating)
  }

  function OnWake(s: Page, id: Id): Page {
    if id !in s.calls then s
    else match s.calls[id]
      case AwaitProactive(p, mutating) =>
        if p in s.promises && s.promises[p].Settled? then
          Prepare(s.(log := s.log + [Told(id, p, s.promises[p].answer)]), id, mutating)
        else s
      case AwaitCsrf => Send(s.(log := s.log + [Headers(id)]), id, AwaitResponse)
      case AwaitRefresh(p) =>
        if p in s.promises && s.promises[p].Settled? then
          var answer := s.promises[p].answer;
          var s := s.(log := s.log + [Told(id, p, answer)]);
          if answer then Send(s, id, AwaitRetry) else s.(calls := s.calls[id := Finished])
        else s
      case AwaitDirect(p) =>
        if p in s.promises && s.promises[p].Settled? then
          s.(calls := s.calls[id := Finished], log := s.log + [Told(id, p, s.promises[p].answer)])
        else s
      case _ => s
  }

  /** `None` is a failed fetch, which throws. */
  function OnResponse(s: Page, id: Id, status: Option<nat>): Page {
    if id !in s.calls || !(s.calls[id].AwaitResponse? || s.calls[id].AwaitRetry?) then s
    else if status.None? then s.(calls := s.calls[id := Finished])
    else
      var first := s.calls[id].AwaitResponse?;
      var s := s.(log := s.log + [Got(id, status.value)]);
      if first && status.value == 401 then
        var s := TryRefresh(s);
        s.(calls := s.calls[id := AwaitRefresh(s.shared.value)])
      else s.(calls := s.calls[id := Finished])
  }

  /** One run of the event loop, up to the next await. */
  function Apply(s: Page, e: Event): Page {
    match e
    case StartFetch(mutating, expiring) => Begin(s, mutating, expiring)
    case StartRefresh =>
      var id, s := s.next, TryRefresh(s.(next := s.next + 1));
      s.(calls := s.calls[id := AwaitDirect(s.shared.value)])
    case RefreshReply(p, reply) => OnReply(s, p, reply)
    case RefreshBody(p, access) => OnBody(s, p, access)
    case Wake(id) => OnWake(s, id)
    case Response(id, status) => OnResponse(s, id, status)
    case Login(access, refresh) => StoreTokens(s, access, refresh)
    case Logout => ClearTokens(s)
  }

  function Run(s: Page, es: seq<Event>): Page {
    if es == [] then s else Apply(Run(s, es[..|es| - 1]), es[|es| - 1])
  }

  // --- One refresh at a time ----------------------------------------------------------------

  /** The promise a suspended call waits for. */
  function WaitsFor(c: Call): Option<Id> {
    match c
    case AwaitProactive(p, _) => Some(p)
    case AwaitRefresh(p) => Some(p)
    case AwaitDirect(p) => Some(p)
    case _ => None
  }

  ghost predicate PromisesOk(promises: map<Id, Promise>, shared: Option<Id>, next: Id) {
    && (forall p :: p in promises ==> p < next)
    && (forall p :: p in promises && promises[p].Pending? ==> shared == Some(p))
    && (shared.Some? ==> shared.value in promises && (promises[shared.value].Settled? ==> !promises[shared.value].answer))
  }

  ghost predicate CallsOk(calls: map<Id, Call>, promises: map<Id, Promise>, next: Id) {
    forall c :: c in calls ==> c < next && (WaitsFor(calls[c]).Some? ==> WaitsFor(calls[c]).value in promises)
  }

  ghost predicate ToldOk(log: seq<Entry>, promises: map<Id, Promise>) {
    forall i :: 0 <= i < |log| && log[i].Told? ==> log[i].p in promises && promises[log[i].p] == Settled(log[i].answer)
  }

  /** A missing token was noticed exactly when the shared promise is already settled. */
  ghost predicate MissedOk(s: Page) {
    && (s.shared.Some? && s.shared.value in s.promises && s.promises[s.shared.value].Settled? ==> Missed(s.shared.value) in s.log)
    && (forall p :: Missed(p) in s.log ==> s.shared == Some(p) && p in s.promises && s.promises[p].Settled?)
  }

  ghost predicate PageOk(s: Page) {
    PromisesOk(s.promises, s.shared, s.next) && CallsOk(s.calls, s.promises, s.next) && ToldOk(s.log, s.promises) && MissedOk(s)
  }

  /** Promises stay, settled ones with their answer. */
  ghost predicate PromisesExtend(promises: map<Id, Promise>, after: map<Id, Promise>) {
    forall p :: p in promises ==> p in after && (promises[p].Settled? ==> after[p] == promises[p])
  }

  lemma ToldStays(log: seq<Entry>, promises: map<Id, Promise>, after: map<Id, Promise>)
    requires ToldOk(log, promises) && PromisesExtend(promises, after)
    ensures ToldOk(log, after)
  {
  }

  lemma CallsStay(calls: map<Id, Call>, promises: map<Id, Promise>, after: map<Id, Promise>, next: Id, later: Id)
    requires CallsOk(calls, promises, next) && PromisesExtend(promises, after) && next <= later
    ensures CallsOk(calls, after, later)
  {
  }

  lemma TryRefreshOk(s: Page)
    requires PageOk(s)
    ensures var after := TryRefresh(s); PageOk(after) && PromisesExtend(s.promises, after.promises) && after.next >= s.next
  {
    hide ToldOk, CallsOk;
    var after := TryRefresh(s);
    ToldStays(s.log, s.promises, after.promises);
    CallsStay(s.calls, s.promises, after.promises, s.next, after.next);
    if after.log != s.log { LogGrows(s.log, after.log[|s.log|], after.promises); }
  }

  /** Entries other than answers leave the told ones as they are. */
  lemma LogGrows(log: seq<Entry>, e: Entry, promises: map<Id, Promise>)
    requires ToldOk(log, promises) && (e.Told? ==> e.p in promises && promises[e.p] == Settled(e.answer))
    ensures ToldOk(log + [e], promises)
  {
  }

  lemma SettleOk(s: Page, p: Id, answer: bool)
    requires PageOk(s) && p in s.promises && s.promises[p].Pending?
    ensures var after := Settle(s, p, answer); PageOk(after) && PromisesExtend(s.promises, after.promises)
  {
    hide ToldOk, CallsOk;
    var after := Settle(s, p, answer);
    ToldStays(s.log, s.promises, after.promises);
    CallsStay(s.calls, s.promises, after.promises, s.next, s.next);
  }

  lemma OnReplyOk(s: Page, p: Id, reply: RefreshOutcome)
    requires PageOk(s)
    ensures var after := OnReply(s, p, reply); PageOk(after) && PromisesExtend(s.promises, after.promises)
  {
    hide ToldOk, CallsOk;
    var after := OnReply(s, p, reply);
    if p in s.promises && s.promises[p].Pending? {
      if reply.Accepted? {
        assert PromisesExtend(s.promises, after.promises);
        ToldStays(s.log, s.promises, after.promises);
        CallsStay(s.calls, s.promises, after.promises, s.next, s.next);
      } else {
        SettleOk(s, p, false);
      }
    }
  }

  lemma OnBodyOk(s: Page, p: Id, access: Option<Token>)
    requires PageOk(s)
    ensures var after := OnBody(s, p, access); PageOk(after) && PromisesExtend(s.promises, after.promises)
  {
    hide ToldOk, CallsOk;
    if p in s.promises && s.promises[p].Pending? { SettleOk(s, p, access.Some?); }
  }

  /** A call that moves on, recording what it did. */
  lemma MoveOk(s: Page, id: Id, c: Call, log: seq<Entry>)
    requires PageOk(s) && id < s.next && (WaitsFor(c).Some? ==> WaitsFor(c).value in s.promises)
    requires ToldOk(log, s.promises) && forall p :: Missed(p) in log <==> Missed(p) in s.log
    ensures PageOk(s.(calls := s.calls[id := c], log := log))
  {
    hide ToldOk, PromisesOk;
  }

  lemma PrepareOk(s: Page, id: Id, mutating: bool)
    requires PageOk(s) && id < s.next
    ensures PageOk(Prepare(s, id, mutating)) && Prepare(s, id, mutating).promises == s.promises
  {
    hide PageOk;
    assert ToldOk(s.log, s.promises) by { PageTold(s); }
    LogGrows(s.log, Sent(id, s.access), s.promises);
    MoveOk(s, id, AwaitCsrf, s.log);
    MoveOk(s, id, AwaitResponse, s.log + [Sent(id, s.access)]);
  }

  lemma PageTold(s: Page)
    requires PageOk(s)
    ensures ToldOk(s.log, s.promises) && CallsOk(s.calls, s.promises, s.next)
  {
  }

  lemma LogOk(s: Page, e: Entry)
    requires PageOk(s) && !e.Missed? && (e.Told? ==> e.p in s.promises && s.promises[e.p] == Settled(e.answer))
    ensures PageOk(s.(log := s.log + [e]))
  {
    hide ToldOk, PromisesOk, CallsOk;
    LogGrows(s.log, e, s.promises);
  }

  lemma OnWakeOk(s: Page, id: Id)
    requires PageOk(s)
    ensures PageOk(OnWake(s, id)) && OnWake(s, id).promises == s.promises
  {
    hide PageOk, ToldOk, Prepare;
    if id in s.calls {
      PageTold(s);
      match s.calls[id]
      case AwaitProactive(p, mutating) =>
        if s.promises[p].Settled? {
          LogOk(s, Told(id, p, s.promises[p].answer));
          PrepareOk(s.(log := s.log + [Told(id, p, s.promises[p].answer)]), id, mutating);
        }
      case AwaitCsrf =>
        var s1 := s.(log := s.log + [Headers(id)]);
        LogOk(s, Headers(id));
        PageTold(s1);
        LogGrows(s1.log, Sent(id, s.access), s.promises);
        MoveOk(s1, id, AwaitResponse, s1.log + [Sent(id, s.access)]);
      case AwaitRefresh(p) =>
        if s.promises[p].Settled? {
          var told := Told(id, p, s.promises[p].answer);
          LogOk(s, told);
          var s1 := s.(log := s.log + [told]);
          PageTold(s1);
          LogGrows(s1.log, Sent(id, s.access), s.promises);
          MoveOk(s1, id, AwaitRetry, s1.log + [Sent(id, s.access)]);
          MoveOk(s1, id, Finished, s1.log);
        }
      case AwaitDirect(p) =>
        if s.promises[p].Settled? {
          LogGrows(s.log, Told(id, p, s.promises[p].answer), s.promises);
          MoveOk(s, id, Finished, s.log + [Told(id, p, s.promises[p].answer)]);
        }
      case _ =>
    }
  }

  lemma OnResponseOk(s: Page, id: Id, status: Option<nat>)
    requires PageOk(s)
    ensures var after := OnResponse(s, id, status); PageOk(after) && PromisesExtend(s.promises, after.promises)
  {
    hide PageOk, ToldOk, TryRefresh;
    if id in s.calls {
      PageTold(s);
      MoveOk(s, id, Finished, s.log);
      if status.Some? {
        LogOk(s, Got(id, status.value));
        var s1 := s.(log := s.log + [Got(id, status.value)]);
        PageTold(s1);
        MoveOk(s1, id, Finished, s1.log);
        TryRefreshOk(s1);
        AwaitShared(TryRefresh(s1), id, AwaitRefresh(TryRefreshShares(s1)));
      }
    }
  }

  function TryRefreshShares(s: Page): (p: Id)
    ensures TryRefresh(s).shared == Some(p) && TryRefresh(s).next >= s.next
  {
    TryRefresh(s).shared.value
  }

  /** A call starts waiting for the shared promise. */
  lemma AwaitShared(s: Page, id: Id, c: Call)
    requires PageOk(s) && id < s.next && WaitsFor(c) == s.shared
    ensures PageOk(s.(calls := s.calls[id := c]))
  {
    hide ToldOk;
  }

  lemma NextGrows(s: Page)
    requires PageOk(s)
    ensures PageOk(s.(next := s.next + 1))
  {
    hide ToldOk;
  }

  lemma BeginOk(s: Page, mutating: bool, expiring: bool)
    requires PageOk(s)
    ensures var after := Begin(s, mutating, expiring); PageOk(after) && PromisesExtend(s.promises, after.promises)
  {
    hide PageOk, TryRefresh, Prepare;
    NextGrows(s);
    var s1 := s.(next := s.next + 1);
    TryRefreshOk(s1);
    AwaitShared(TryRefresh(s1), s.next, AwaitProactive(TryRefreshShares(s1), mutating));
    PrepareOk(s1, s.next, mutating);
  }

  lemma StepOk(s: Page, e: Event)
    requires PageOk(s)
    ensures PageOk(Apply(s, e)) && PromisesExtend(s.promises, Apply(s, e).promises)
  {
    hide PageOk, TryRefresh, Begin, OnReply, OnBody, OnWake, OnResponse;
    match e
    case StartFetch(mutating, expiring) => BeginOk(s, mutating, expiring);
    case StartRefresh =>
      NextGrows(s);
      var s1 := s.(next := s.next + 1);
      TryRefreshOk(s1);
      AwaitShared(TryRefresh(s1), s.next, AwaitDirect(TryRefreshShares(s1)));
    case RefreshReply(p, reply) => OnReplyOk(s, p, reply);
    case RefreshBody(p, access) => OnBodyOk(s, p, access);
    case Wake(id) => OnWakeOk(s, id);
    case Response(id, status) => OnResponseOk(s, id, status);
    case Login(_, _) => TokensDontMatter(s, Apply(s, e));
    case Logout => TokensDontMatter(s, Apply(s, e));
  }

  lemma TokensDontMatter(s: Page, after: Page)
    requires PageOk(s) && after == s.(access := after.access, refresh := after.refresh)
    ensures PageOk(after)
  {
  }

  lemma {:induction false} RunOk(s: Page, es: seq<Event>)
    requires PageOk(s)
    ensures PageOk(Run(s, es)) && PromisesExtend(s.promises, Run(s, es).promises)
  {
    hide PageOk, Apply;
    if es != [] {
      var before := Run(s, es[..|es| - 1]);
      RunOk(s, es[..|es| - 1]);
      StepOk(before, es[|es| - 1]);
    }
  }

  lemma InitOk()
    ensures PageOk(INIT)
  {
  }

  /**
   * In every run, at most one refresh request is outstanding, and it is the one the shared promise stands for; a call
   * needing a refresh meanwhile sends no request and waits for that one.
   */
  lemma SingleFlight(es: seq<Event>, p: Id)
    requires p in Run(INIT, es).promises && Run(INIT, es).promises[p].Pending?
    ensures var s := Run(INIT, es);
            && (forall q :: q in s.promises && s.promises[q].Pending? ==> q == p)
            && TryRefresh(s) == s && s.shared == Some(p)
  {
    hide Run;
    InitOk();
    RunOk(INIT, es);
  }

  /** In every run, all callers told about one refresh are told the same answer, whenever they are told. */
  lemma SharedAnswer(es: seq<Event>, i: nat, j: nat)
    requires i < |Run(INIT, es).log| && j < |Run(INIT, es).log|
    requires var log := Run(INIT, es).log; log[i].Told? && log[j].Told? && log[i].p == log[j].p
    ensures Run(INIT, es).log[i].answer == Run(INIT, es).log[j].answer
  {
    hide Run;
    InitOk();
    RunOk(INIT, es);
  }

  // --- When a refresh is asked for -----------------------------------------------------------

  function Asks(log: seq<Entry>): nat {
    if log == [] then 0 else Asks(log[..|log| - 1]) + if log[|log| - 1].Asked? then 1 else 0
  }

  lemma AsksSnoc(log: seq<Entry>, e: Entry)
    ensures Asks(log + [e]) == Asks(log) + if e.Asked? then 1 else 0
  {
    assert (log + [e])[..|log|] == log;
  }

  /**
   * With a refresh token stored and no refresh outstanding, a caller causes a request exactly when no earlier caller ever
   * found the refresh token missing.
   */
  lemma RefreshAskedIffNeverMissed(es: seq<Event>)
    requires var s := Run(INIT, es); s.refresh.Some? && forall p :: p in s.promises ==> s.promises[p].Settled?
    ensures var s := Run(INIT, es);
            Asks(TryRefresh(s).log) == Asks(s.log) + 1 <==> forall p :: Missed(p) !in s.log
  {
    hide Run, Asks;
    InitOk();
    RunOk(INIT, es);
    var s := Run(INIT, es);
    if s.shared.None? { AsksSnoc(s.log, Asked(s.next, s.refresh.value)); }
  }

  /** A caller that finds the refresh token missing leaves the shared promise settled. */
  ghost predicate Stale(s: Page, p: Id) { s.shared == Some(p) && p in s.promises && s.promises[p] == Settled(false) }

  lemma StepKeepsStale(s: Page, e: Event, p: Id)
    requires PageOk(s) && Stale(s, p)
    ensures Stale(Apply(s, e), p) && Asks(Apply(s, e).log) == Asks(s.log)
  {
    hide ToldOk, CallsOk, MissedOk, Asks;
    var log := s.log;
    match e
    case Wake(id) =>
      AsksSnoc(log, Headers(id));
      AsksSnoc(log + [Headers(id)], Sent(id, s.access));
      forall q, b
        ensures Asks(log + [Told(id, q, b)]) == Asks(log) && Asks(log + [Told(id, q, b)] + [Sent(id, s.access)]) == Asks(log)
      {
        AsksSnoc(log, Told(id, q, b));
        AsksSnoc(log + [Told(id, q, b)], Sent(id, s.access));
      }
    case Response(id, status) => if status.Some? { AsksSnoc(log, Got(id, status.value)); }
    case StartFetch(_, _) => AsksSnoc(log, Sent(s.next, s.access));
    case _ =>
  }

  /** From then on, until the page is loaded anew, no refresh request is ever sent, not even after a login. */
  lemma {:induction false} MissedForever(s: Page, es: seq<Event>, p: Id)
    requires PageOk(s) && Stale(s, p)
    ensures Stale(Run(s, es), p) && Asks(Run(s, es).log) == Asks(s.log)
  {
    hide PageOk, Apply, Asks, Stale;
    if es != [] {
      MissedForever(s, es[..|es| - 1], p);
      RunOk(s, es[..|es| - 1]);
      StepKeepsStale(Run(s, es[..|es| - 1]), es[|es| - 1], p);
    }
  }

  /** A page opened without tokens never refreshes: the first caller's answer stays shared after the user logs in. */
  lemma NoRefreshAfterEarlyFetch(es: seq<Event>, mutating: bool, expiring: bool)
    ensures var s := Apply(INIT, StartFetch(mutating, expiring)); Asks(Run(s, es).log) == 0
  {
    hide PageOk, Run;
    var s := Apply(INIT, StartFetch(mutating, expiring));
    InitOk();
    StepOk(INIT, StartFetch(mutating, expiring));
    assert s.log == [Missed(1)] && Asks(s.log[..0]) == 0;
    MissedForever(s, es, 1);
  }

  // --- Logging out -----------------------------------------------------------------------------

  ghost predicate NoLogin(es: seq<Event>) { forall i :: 0 <= i < |es| ==> !es[i].Login? }

  ghost predicate LoggedOut(s: Page) { s.access == None && s.refresh == None }

  ghost predicate NoneOutstanding(s: Page) { forall p :: p in s.promises ==> s.promises[p].Settled? }

  /** Whatever happens without a login, the tokens stay away. */
  ghost predicate StaysLoggedOut(s: Page) { forall more :: NoLogin(more) ==> LoggedOut(Run(s, more)) }

  lemma StepStaysOut(s: Page, e: Event)
    requires PageOk(s) && LoggedOut(s) && NoneOutstanding(s) && !e.Login?
    ensures LoggedOut(Apply(s, e)) && NoneOutstanding(Apply(s, e))
  {
    hide ToldOk, CallsOk, MissedOk;
  }

  lemma {:induction false} RunStaysOut(s: Page, more: seq<Event>)
    requires PageOk(s) && LoggedOut(s) && NoneOutstanding(s) && NoLogin(more)
    ensures LoggedOut(Run(s, more)) && NoneOutstanding(Run(s, more))
  {
    hide PageOk, Apply, LoggedOut, NoneOutstanding;
    if more != [] {
      var front := more[..|more| - 1];
      RunStaysOut(s, front);
      RunOk(s, front);
      StepStaysOut(Run(s, front), more[|more| - 1]);
    }
  }

  /** The two responses an outstanding refresh still waits for, or the one. */
  function Completion(p: Id, flight: Flight, access: Token): seq<Event> {
    if flight.Fetching? then [RefreshReply(p, Accepted), RefreshBody(p, Some(access))] else [RefreshBody(p, Some(access))]
  }

  lemma RunOne(s: Page, e: Event)
    ensures Run(s, [e]) == Apply(s, e)
  {
    assert [e][..0] == [];
  }

  lemma RunTwo(s: Page, e: Event, f: Event)
    ensures Run(s, [e, f]) == Apply(Apply(s, e), f)
  {
    hide Apply;
    RunOne(s, e);
    assert [e, f][..1] == [e];
  }

  /** An outstanding refresh that succeeds stores a new access token and the refresh token it was started with. */
  lemma CompletionLogsIn(s: Page, p: Id, access: Token)
    requires p in s.promises && s.promises[p].Pending?
    ensures var flight := s.promises[p].flight; var after := Run(s, Completion(p, flight, access));
            NoLogin(Completion(p, flight, access)) && after.access == Some(access) && after.refresh == Some(flight.token)
  {
    if s.promises[p].flight.Fetching? {
      RunTwo(s, RefreshReply(p, Accepted), RefreshBody(p, Some(access)));
    } else {
      RunOne(s, RefreshBody(p, Some(access)));
    }
  }

  /**
   * At every point of every run, a logout lasts until the next login, whatever else happens, if and only if no refresh
   * is outstanding at the logout.
   */
  lemma LogoutLastsIffNoneOutstanding(es: seq<Event>)
    ensures StaysLoggedOut(Apply(Run(INIT, es), Logout)) <==> NoneOutstanding(Run(INIT, es))
  {
    hide Run, LoggedOut, NoLogin;
    InitOk();
    RunOk(INIT, es);
    var s := Run(INIT, es);
    var out := Apply(s, Logout);
    StepOk(s, Logout);
    assert LoggedOut(out) by { LoggingOut(s); }
    if NoneOutstanding(s) {
      forall more | NoLogin(more)
        ensures LoggedOut(Run(out, more))
      {
        RunStaysOut(out, more);
      }
    } else {
      var p :| p in s.promises && !s.promises[p].Settled?;
      CompletionLogsIn(out, p, "");
      var more := Completion(p, out.promises[p].flight, "");
      assert !LoggedOut(Run(out, more)) by { LoggedIn(Run(out, more)); }
      assert NoLogin(more);
    }
  }

  lemma LoggingOut(s: Page)
    ensures LoggedOut(Apply(s, Logout))
  {
  }

  lemma LoggedIn(s: Page)
    requires s.access.Some?
    ensures !LoggedOut(s)
  {
  }

  /** Such a run: a user logs in, a refresh is asked for, the user logs out, and the refresh succeeds. */
  lemma LogoutIsUndone(access: Token, refresh: Token, newer: Token)
    ensures var s := Run(INIT, [Login(access, refresh), StartRefresh]);
            var after := Run(Apply(s, Logout), Completion(1, Fetching(refresh), newer));
            after.access == Some(newer) && after.refresh == Some(refresh)
  {
    RunTwo(INIT, Login(access, refresh), StartRefresh);
    var s := Run(INIT, [Login(access, refresh), StartRefresh]);
    assert s.promises == map[1 := Pending(Fetching(refresh))];
    CompletionLogsIn(Apply(s, Logout), 1, newer);
  }

  // --- Losing the tokens -------------------------------------------------------------------------

  ghost predicate HasTokens(s: Page) { s.access.Some? && s.refresh.Some? }

  /** No logout and no rejected refresh among the events. */
  ghost predicate NoLoss(es: seq<Event>) {
    forall i :: 0 <= i < |es| ==> !es[i].Logout? && !(es[i].RefreshReply? && es[i].reply.Rejected?)
  }

  ghost predicate TokensTogether(s: Page) { s.access.Some? <==> s.refresh.Some? }

  lemma StepKeepsTokens(s: Page, e: Event)
    requires TokensTogether(s)
    ensures TokensTogether(Apply(s, e))
    ensures HasTokens(s) && !e.Logout? && !(e.RefreshReply? && e.reply.Rejected?) ==> HasTokens(Apply(s, e))
  {
  }

  lemma {:induction false} RunKeepsTokens(s: Page, es: seq<Event>)
    requires TokensTogether(s)
    ensures TokensTogether(Run(s, es)) && (HasTokens(s) && NoLoss(es) ==> HasTokens(Run(s, es)))
  {
    hide Apply, TokensTogether, HasTokens;
    if es != [] {
      RunKeepsTokens(s, es[..|es| - 1]);
      StepKeepsTokens(Run(s, es[..|es| - 1]), es[|es| - 1]);
    }
  }

  /**
   * In every run the two tokens come and go together, and once there they stay through any continuation without a logout
   * and without a rejected refresh: failed, unreadable and missed refreshes take nothing away.
   */
  lemma TokensLostOnlyByRejection(es: seq<Event>, more: seq<Event>)
    ensures var s := Run(INIT, es);
            TokensTogether(s) && (HasTokens(s) && NoLoss(more) ==> HasTokens(Run(s, more)))
  {
    hide Run, HasTokens, NoLoss;
    RunKeepsTokens(INIT, es);
    RunKeepsTokens(Run(INIT, es), more);
  }
}
