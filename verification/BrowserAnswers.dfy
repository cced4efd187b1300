/** Refreshes and fetches served with nothing in between: what is sent, told and stored; and every call can come to its end. */
module BrowserAnswers {
  import opened Basics
  import opened BrowserAuth

  /** How the refresh endpoint answers: the response, and the body's access token. */
  datatype Endpoint = Endpoint(reply: RefreshOutcome, body: Option<Token>)

  predicate Succeeds(net: Endpoint) { net.reply.Accepted? && net.body.Some? }

  function RefreshEvents(p: Id, net: Endpoint): seq<Event> {
    if net.reply.Accepted? then [RefreshReply(p, net.reply), RefreshBody(p, net.body)] else [RefreshReply(p, net.reply)]
  }

  lemma {:induction false} RunMore(s: Page, es: seq<Event>, more: seq<Event>)
    ensures Run(s, es + more) == Run(Run(s, es), more)
  {
    hide Apply;
    if more == [] {
      assert es + more == es;
    } else {
      RunMore(s, es, more[..|more| - 1]);
      assert (es + more)[..|es + more| - 1] == es + more[..|more| - 1];
    }
  }

  lemma RunOne(s: Page, e: Event)
    ensures Run(s, [e]) == Apply(s, e)
  {
    hide Apply;
    assert [e][..0] == [];
  }

  lemma RunTwo(s: Page, e1: Event, e2: Event)
    ensures Run(s, [e1, e2]) == Apply(Apply(s, e1), e2)
  {
    hide Apply, Run;
    assert [e1, e2] == [e1] + [e2];
    RunMore(s, [e1], [e2]);
    RunOne(s, e1);
    RunOne(Apply(s, e1), e2);
  }

  // --- A refresh ------------------------------------------------------------------------------

  /**
   * An outstanding refresh, answered: only an accepted response with a readable token succeeds, storing that access token next to
   * the refresh token the request was started with; a rejection clears both tokens; anything else leaves them. In each case
   * the next refresh starts afresh.
   */
  lemma RefreshServed(s: Page, p: Id, token: Token, net: Endpoint)
    requires p in s.promises && s.promises[p] == Pending(Fetching(token))
    ensures Run(s, RefreshEvents(p, net)) ==
            s.(shared := None, promises := s.promises[p := Settled(Succeeds(net))],
               access := if Succeeds(net) then net.body else if net.reply.Rejected? then None else s.access,
               refresh := if Succeeds(net) then Some(token) else if net.reply.Rejected? then None else s.refresh)
  {
    hide Run;
    if net.reply.Accepted? {
      RunTwo(s, RefreshReply(p, net.reply), RefreshBody(p, net.body));
      var parsing := Apply(s, RefreshReply(p, net.reply));
      assert parsing.promises[p] == Pending(Parsing(token));
    } else {
      RunOne(s, RefreshReply(p, net.reply));
    }
  }

  /** Asking for a refresh: the outstanding one is shared; with no token it is known missing at once; else one request is sent. */
  lemma RefreshStarts(s: Page)
    ensures var after := Apply(s, StartRefresh);
            var id, p := s.next, s.next + 1;
            && after.access == s.access && after.refresh == s.refresh && id in after.calls
            && (s.shared.Some? ==> after.calls[id] == AwaitDirect(s.shared.value) && after.log == s.log && after.promises == s.promises)
            && (s.shared.None? ==> after.calls[id] == AwaitDirect(p) && after.shared == Some(p) && p in after.promises)
            && (s.shared.None? && s.refresh.None? ==> after.promises[p] == Settled(false) && after.log == s.log + [Missed(p)])
            && (s.shared.None? && s.refresh.Some? ==>
                  after.promises[p] == Pending(Fetching(s.refresh.value)) && after.log == s.log + [Asked(p, s.refresh.value)])
  {
  }

  // --- A fetch --------------------------------------------------------------------------------

  /** Headers are fetched for mutating requests only. */
  function Heads(id: Id, mutating: bool): seq<Entry> { if mutating then [Headers(id)] else [] }

  function HeadEvents(id: Id, mutating: bool): seq<Event> { if mutating then [Wake(id)] else [] }

  /** A fetch whose access token is fresh sends its request without a refresh. */
  lemma FetchStarts(s: Page, mutating: bool)
    requires s.access.Some?
    ensures var after := Run(s, [StartFetch(mutating, false)] + HeadEvents(s.next, mutating));
            after == s.(next := s.next + 1, calls := s.calls[s.next := AwaitResponse], log := s.log + Heads(s.next, mutating) + [Sent(s.next, s.access)])
  {
    hide Run;
    var start := StartFetch(mutating, false);
    RunOne(s, start);
    if mutating {
      assert [start] + [Wake(s.next)] == [start, Wake(s.next)];
      RunTwo(s, start, Wake(s.next));
    } else {
      assert [start] + [] == [start];
      assert s.log + [] + [Sent(s.next, s.access)] == s.log + [Sent(s.next, s.access)];
    }
  }

  /** A fetch whose access token is missing or expiring first waits for a refresh; its request follows whatever that gives. */
  lemma FetchRefreshesFirst(s: Page, mutating: bool, expiring: bool, token: Token, net: Endpoint)
    requires s.access.None? || expiring
    requires s.shared.None? && s.refresh == Some(token)
    ensures var id, p := s.next, s.next + 1;
            var after := Run(s, [StartFetch(mutating, expiring)] + (RefreshEvents(p, net) + ([Wake(id)] + HeadEvents(id, mutating))));
            && after.log == s.log + [Asked(p, token), Told(id, p, Succeeds(net))] + Heads(id, mutating) + [Sent(id, after.access)]
            && id in after.calls && after.calls[id] == AwaitResponse && after.shared.None?
            && after.access == (if Succeeds(net) then net.body else if net.reply.Rejected? then None else s.access)
            && after.refresh == (if net.reply.Rejected? then None else s.refresh)
  {
    hide Run, RefreshEvents;
    var id, p, start := s.next, s.next + 1, StartFetch(mutating, expiring);
    var heads := [Wake(id)] + HeadEvents(id, mutating);
    RunMore(s, [start], RefreshEvents(p, net) + heads);
    RunOne(s, start);
    var begun := Apply(s, start);
    RunMore(begun, RefreshEvents(p, net), heads);
    RefreshServed(begun, p, token, net);
    var settled := Run(begun, RefreshEvents(p, net));
    assert settled.calls[id] == AwaitProactive(p, mutating);
    RunOne(settled, Wake(id));
    if mutating {
      assert heads == [Wake(id), Wake(id)];
      RunTwo(settled, Wake(id), Wake(id));
    } else {
      assert heads == [Wake(id)];
    }
    assert s.log + [Asked(p, token)] + [Told(id, p, Succeeds(net))] == s.log + [Asked(p, token), Told(id, p, Succeeds(net))];
    assert s.log + [Asked(p, token), Told(id, p, Succeeds(net))] + [] + [Sent(id, settled.access)]
           == s.log + [Asked(p, token), Told(id, p, Succeeds(net))] + [Sent(id, settled.access)];
  }

  /** A response other than 401, or a fetch that throws, ends the call; so does any response to the second request. */
  lemma FetchEnds(s: Page, id: Id, status: Option<nat>)
    requires id in s.calls && (s.calls[id] == AwaitRetry || (s.calls[id] == AwaitResponse && status != Some(401)))
    ensures Apply(s, Response(id, status)) ==
            s.(calls := s.calls[id := Finished], log := if status.Some? then s.log + [Got(id, status.value)] else s.log)
  {
  }

  /** A first 401 asks for a refresh; the request is sent again exactly if that succeeds, and else the 401 is the answer. */
  lemma UnauthorizedRefreshes(s: Page, id: Id, token: Token, net: Endpoint)
    requires id in s.calls && s.calls[id] == AwaitResponse && s.shared.None? && s.refresh == Some(token)
    ensures var p := s.next;
            var after := Run(s, [Response(id, Some(401))] + (RefreshEvents(p, net) + [Wake(id)]));
            && id in after.calls && after.calls[id] == (if Succeeds(net) then AwaitRetry else Finished)
            && after.log == s.log + [Got(id, 401), Asked(p, token), Told(id, p, Succeeds(net))] + (if Succeeds(net) then [Sent(id, net.body)] else [])
            && after.access == (if Succeeds(net) then net.body else if net.reply.Rejected? then None else s.access)
            && after.refresh == (if net.reply.Rejected? then None else s.refresh)
  {
    hide Run, RefreshEvents;
    var p, got := s.next, Response(id, Some(401));
    RunMore(s, [got], RefreshEvents(p, net) + [Wake(id)]);
    RunOne(s, got);
    var begun := Apply(s, got);
    RunMore(begun, RefreshEvents(p, net), [Wake(id)]);
    RefreshServed(begun, p, token, net);
    var settled := Run(begun, RefreshEvents(p, net));
    RunOne(settled, Wake(id));
    assert settled.calls[id] == AwaitRefresh(p);
    assert s.log + [Got(id, 401)] + [Asked(p, token)] + [Told(id, p, Succeeds(net))]
           == s.log + [Got(id, 401), Asked(p, token), Told(id, p, Succeeds(net))];
  }

  // --- Every call can end ---------------------------------------------------------------------------

  /** The promise a call waits for can be settled. */
  lemma CanSettle(s: Page, p: Id) returns (es: seq<Event>)
    requires PageOk(s) && p in s.promises
    ensures var after := Run(s, es); p in after.promises && after.promises[p].Settled? && after.calls == s.calls && PageOk(after)
  {
    hide Run, PageOk;
    match s.promises[p]
    case Settled(_) =>
      es := [];
      RunNone(s);
    case Pending(Fetching(_)) =>
      es := [RefreshReply(p, Broken)];
      RunOne(s, es[0]);
      StepOk(s, es[0]);
    case Pending(Parsing(_)) =>
      es := [RefreshBody(p, None)];
      RunOne(s, es[0]);
      StepOk(s, es[0]);
  }

  lemma RunNone(s: Page)
    ensures Run(s, []) == s
  {
  }

  /** A call that has its response outstanding can end. */
  lemma CanThrow(s: Page, id: Id)
    requires id in s.calls && (s.calls[id].AwaitResponse? || s.calls[id].AwaitRetry?)
    ensures var after := Run(s, [Response(id, None)]); id in after.calls && after.calls[id].Finished?
  {
    hide Run;
    RunOne(s, Response(id, None));
  }

  /** Steps left at most until the call waits for a response or has ended. */
  function Left(c: Call): nat {
    match c
    case AwaitProactive(_, _) => 3
    case AwaitCsrf => 2
    case AwaitRefresh(_) => 2
    case AwaitDirect(_) => 2
    case AwaitResponse => 1
    case AwaitRetry => 1
    case Finished => 0
  }

  lemma {:induction false} CanFinish(s: Page, id: Id) returns (es: seq<Event>)
    requires PageOk(s) && id in s.calls
    ensures var after := Run(s, es); id in after.calls && after.calls[id].Finished?
    decreases Left(s.calls[id])
  {
    hide Run, PageOk, Apply;
    var c := s.calls[id];
    if c.Finished? {
      es := [];
      RunNone(s);
    } else if c.AwaitResponse? || c.AwaitRetry? {
      es := [Response(id, None)];
      CanThrow(s, id);
    } else {
      var first: seq<Event> := [];
      RunNone(s);
      if WaitsFor(c).Some? {
        WaitsForPromise(s, id);
        first := CanSettle(s, WaitsFor(c).value);
      }
      var ready := Run(s, first);
      Woken(ready, id);
      StepOk(ready, Wake(id));
      var rest := CanFinish(Apply(ready, Wake(id)), id);
      es := first + ([Wake(id)] + rest);
      RunMore(s, first, [Wake(id)] + rest);
      RunMore(ready, [Wake(id)], rest);
      RunOne(ready, Wake(id));
    }
  }

  lemma WaitsForPromise(s: Page, id: Id)
    requires PageOk(s) && id in s.calls && WaitsFor(s.calls[id]).Some?
    ensures WaitsFor(s.calls[id]).value in s.promises
  {
  }

  lemma Woken(s: Page, id: Id)
    requires id in s.calls && !(s.calls[id].AwaitResponse? || s.calls[id].AwaitRetry? || s.calls[id].Finished?)
    requires var p := WaitsFor(s.calls[id]); p.Some? ==> p.value in s.promises && s.promises[p.value].Settled?
    ensures var after := Apply(s, Wake(id)); id in after.calls && Left(after.calls[id]) < Left(s.calls[id])
  {
  }

  /** In every reachable state, every call begun can still come to its end. */
  lemma EveryCallCanFinish(es: seq<Event>, id: Id)
    requires id in Run(INIT, es).calls
    ensures exists more :: id in Run(INIT, es + more).calls && Run(INIT, es + more).calls[id].Finished?
  {
    hide Run, PageOk;
    InitOk();
    RunOk(INIT, es);
    var more := CanFinish(Run(INIT, es), id);
    RunMore(INIT, es, more);
  }
}
