/** The module-level state of the browser client, updated in place between awaits. */
module BrowserClient {
  import opened Basics
  import opened BrowserAuth
  import opened BrowserFetch

  class AuthClient {
    var accessToken: Option<Token>
    var refreshToken: Option<Token>
    var refreshPromise: Option<Id>
    var promises: map<Id, Promise>
    var calls: map<Id, Call>
    var next: Id
    ghost var log: seq<Entry>

    ghost function View(): Page reads this { Page(accessToken, refreshToken, refreshPromise, promises, calls, next, log) }

    ghost predicate Valid() reads this { PageOk(View()) && FetchesOk(View()) }

    constructor ()
      ensures Valid() && View() == INIT
    {
      accessToken, refreshToken, refreshPromise, promises, calls, next, log := None, None, None, map[], map[], 0, [];
      new;
      InitOk();
      RunFetches([]);
    }

    twostate lemma Kept(e: Event)
      requires old(Valid()) && View() == Apply(old(View()), e)
      ensures Valid()
    {
      hide PageOk, FetchesOk, Apply;
      StepOk(old(View()), e);
      StepFetches(old(View()), e);
    }

    method StoreTokens(access: Token, refresh: Token)
      requires Valid()
      modifies this
      ensures Valid() && View() == Apply(old(View()), Login(access, refresh))
    {
      accessToken, refreshToken := Some(access), Some(refresh);
      Kept(Login(access, refresh));
    }

    method ClearTokens()
      requires Valid()
      modifies this
      ensures Valid() && View() == Apply(old(View()), Logout)
    {
      accessToken, refreshToken := None, None;
      Kept(Logout);
    }

    /** The synchronous part of `tryRefreshToken`: the promise the caller goes on to await. */
    method TryRefreshToken() returns (p: Id)
      requires PromisesOk(promises, refreshPromise, next)
      modifies this
      ensures View() == TryRefresh(old(View()))
      ensures refreshPromise == Some(p)
      ensures forall q :: q in old(promises) && old(promises[q]).Pending? ==> p == q && promises == old(promises)
    {
      if refreshPromise.Some? { return refreshPromise.value; }
      p := next;
      next := next + 1;
      refreshPromise := Some(p);
      if refreshToken.None? {
        promises, log := promises[p := Settled(false)], log + [Missed(p)];
      } else {
        promises, log := promises[p := Pending(Fetching(refreshToken.value))], log + [Asked(p, refreshToken.value)];
      }
    }

    /** The refresh request's response: a rejection clears the tokens, and the `finally` empties the shared promise. */
    method OnRefreshReply(p: Id, reply: RefreshOutcome)
      requires Valid() && p in promises && promises[p].Pending? && promises[p].flight.Fetching?
      modifies this
      ensures Valid() && View() == Apply(old(View()), RefreshReply(p, reply))
    {
      if reply.Accepted? {
        promises := promises[p := Pending(Parsing(promises[p].flight.token))];
      } else {
        if reply.Rejected? { accessToken, refreshToken := None, None; }
        promises, refreshPromise := promises[p := Settled(false)], None;
      }
      Kept(RefreshReply(p, reply));
    }

    /** The response's body: the new access token is stored with the refresh token the request was made with. */
    method OnRefreshBody(p: Id, access: Option<Token>)
      requires Valid() && p in promises && promises[p].Pending? && promises[p].flight.Parsing?
      modifies this
      ensures Valid() && View() == Apply(old(View()), RefreshBody(p, access))
    {
      if access.Some? { accessToken, refreshToken := access, Some(promises[p].flight.token); }
      promises, refreshPromise := promises[p := Settled(access.Some?)], None;
      Kept(RefreshBody(p, access));
    }

    /** `apiFetch` up to its first await. */
    method StartFetch(mutating: bool, expiring: bool) returns (id: Id)
      requires Valid()
      modifies this
      ensures Valid() && id == old(next) && View() == Apply(old(View()), BrowserAuth.StartFetch(mutating, expiring))
    {
      hide PageOk, FetchesOk;
      NextGrows(View());
      id := next;
      next := next + 1;
      assert PromisesOk(promises, refreshPromise, next) by { PagePromises(View()); }
      if accessToken.None? || expiring {
        var p := TryRefreshToken();
        calls := calls[id := AwaitProactive(p, mutating)];
      } else if mutating {
        calls := calls[id := AwaitCsrf];
      } else {
        calls, log := calls[id := AwaitResponse], log + [Sent(id, accessToken)];
      }
      Kept(BrowserAuth.StartFetch(mutating, expiring));
    }

    lemma PagePromises(s: Page)
      requires PageOk(s)
      ensures PromisesOk(s.promises, s.shared, s.next)
    {
    }

    /** A call goes on after an await on a promise or on its headers. */
    method Resume(id: Id)
      requires Valid() && id in calls
      requires calls[id].AwaitCsrf? || (WaitsFor(calls[id]).Some? && WaitsFor(calls[id]).value in promises
                                        && promises[WaitsFor(calls[id]).value].Settled?)
      modifies this
      ensures Valid() && View() == Apply(old(View()), Wake(id))
    {
      hide PageOk, FetchesOk;
      match calls[id] {
        case AwaitProactive(p, mutating) =>
          log := log + [Told(id, p, promises[p].answer)];
          if mutating {
            calls := calls[id := AwaitCsrf];
          } else {
            calls, log := calls[id := AwaitResponse], log + [Sent(id, accessToken)];
          }
        case AwaitCsrf => calls, log := calls[id := AwaitResponse], log + [Headers(id)] + [Sent(id, accessToken)];
        case AwaitRefresh(p) =>
          log := log + [Told(id, p, promises[p].answer)];
          if promises[p].answer {
            calls, log := calls[id := AwaitRetry], log + [Sent(id, accessToken)];
          } else {
            calls := calls[id := Finished];
          }
        case AwaitDirect(p) => calls, log := calls[id := Finished], log + [Told(id, p, promises[p].answer)];
        case _ =>
      }
      Kept(Wake(id));
    }

    /** A call's response arrives, or its fetch throws; only the first 401 leads to a refresh. */
    method OnResponse(id: Id, status: Option<nat>)
      requires Valid() && id in calls && (calls[id].AwaitResponse? || calls[id].AwaitRetry?)
      modifies this
      ensures Valid() && View() == Apply(old(View()), Response(id, status))
    {
      hide PageOk, FetchesOk;
      assert PromisesOk(promises, refreshPromise, next) by { PagePromises(View()); }
      if status.Some? { log := log + [Got(id, status.value)]; }
      if calls[id].AwaitResponse? && status == Some(401) {
        var p := TryRefreshToken();
        calls := calls[id := AwaitRefresh(p)];
      } else {
        calls := calls[id := Finished];
      }
      Kept(Response(id, status));
    }
  }
}
