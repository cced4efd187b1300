/** What one call of `apiFetch` sends, over every order in which awaits resume. */
module BrowserFetch {
  import opened Basics
  import opened BrowserAuth

  function CallOf(e: Entry): Option<Id> {
    match e
    case Headers(c) => Some(c)
    case Sent(c, _) => Some(c)
    case Got(c, _) => Some(c)
    case Told(c, _, _) => Some(c)
    case _ => None
  }

  /** The history of one call. */
  function OfCall(log: seq<Entry>, id: Id): seq<Entry> {
    if log == [] then []
    else
      var last := log[|log| - 1];
      OfCall(log[..|log| - 1], id) + if CallOf(last) == Some(id) then [last] else []
  }

  lemma OfCallSnoc(log: seq<Entry>, e: Entry, id: Id)
    ensures OfCall(log + [e], id) == OfCall(log, id) + if CallOf(e) == Some(id) then [e] else []
  {
    assert (log + [e])[..|log|] == log;
  }

  /** A second request comes right after the first, its 401, and a refresh that succeeded. */
  predicate RetriesOnce(h: seq<Entry>) {
    forall i, j :: 0 <= i < j < |h| && h[i].Sent? && h[j].Sent? ==>
      j == i + 3 && h[i + 1].Got? && h[i + 1].status == 401 && h[i + 2].Told? && h[i + 2].answer
  }

  /** Before its first request a call has at most been told about a proactive refresh, whose answer it ignores. */
  predicate Prelude(h: seq<Entry>) { |h| <= 1 && (|h| == 1 ==> h[0].Told?) }

  /** A mutating call has then fetched its headers. */
  predicate Prepared(h: seq<Entry>) { Prelude(h) || (|h| >= 1 && h[|h| - 1].Headers? && Prelude(h[..|h| - 1])) }

  predicate SentOnce(h: seq<Entry>) { |h| >= 1 && h[|h| - 1].Sent? && Prepared(h[..|h| - 1]) }

  predicate Unauthorized(h: seq<Entry>) {
    |h| >= 2 && h[|h| - 1].Got? && h[|h| - 1].status == 401 && SentOnce(h[..|h| - 1])
  }

  predicate Refreshed(h: seq<Entry>) {
    |h| >= 3 && h[|h| - 1].Told? && h[|h| - 1].answer && Unauthorized(h[..|h| - 1])
  }

  predicate SentTwice(h: seq<Entry>) { |h| >= 4 && h[|h| - 1].Sent? && Refreshed(h[..|h| - 1]) }

  /** The history of a call suspended there. */
  predicate Fits(c: Call, h: seq<Entry>) {
    match c
    case AwaitProactive(_, _) => h == []
    case AwaitCsrf => Prelude(h)
    case AwaitResponse => SentOnce(h)
    case AwaitRefresh(_) => Unauthorized(h)
    case AwaitRetry => SentTwice(h)
    case AwaitDirect(_) => h == []
    case Finished => Complete(h)
  }

  /** Told of a direct refresh; or one request that failed or was answered, with a refresh that failed after a 401; or two. */
  predicate Complete(h: seq<Entry>) {
    || (|h| == 1 && h[0].Told?) || SentOnce(h) || SentTwice(h)
    || (|h| >= 2 && h[|h| - 1].Got? && h[|h| - 1].status != 401 && SentOnce(h[..|h| - 1]))
    || (|h| >= 2 && h[|h| - 1].Got? && SentTwice(h[..|h| - 1]))
    || (|h| >= 3 && h[|h| - 1].Told? && !h[|h| - 1].answer && Unauthorized(h[..|h| - 1]))
  }

  ghost predicate FetchesOk(s: Page) {
    && (forall c :: c in s.calls ==> c < s.next && Fits(s.calls[c], OfCall(s.log, c)))
    && (forall c :: c !in s.calls ==> OfCall(s.log, c) == [])
  }

  /** The effect of a step on the histories: one call moves on with new entries, the others keep theirs. */
  ghost predicate Moves(s: Page, after: Page, id: Id) {
    && s.next <= after.next && id < after.next
    && id in after.calls && Fits(after.calls[id], OfCall(after.log, id))
    && (forall c :: c != id ==> (c in after.calls <==> c in s.calls) && OfCall(after.log, c) == OfCall(s.log, c))
    && (forall c :: c != id && c in s.calls ==> after.calls[c] == s.calls[c])
  }

  lemma MovesOk(s: Page, after: Page, id: Id)
    requires FetchesOk(s) && Moves(s, after, id)
    ensures FetchesOk(after)
  {
    hide Fits, OfCall;
  }

  lemma Snoc(log: seq<Entry>, e: Entry)
    ensures forall c: Id :: OfCall(log + [e], c) == OfCall(log, c) + if CallOf(e) == Some(c) then [e] else []
  {
    forall c: Id
      ensures OfCall(log + [e], c) == OfCall(log, c) + if CallOf(e) == Some(c) then [e] else []
    {
      OfCallSnoc(log, e, c);
    }
  }

  lemma TryRefreshLogs(s: Page)
    ensures var after := TryRefresh(s);
            after.calls == s.calls && after.next >= s.next && after.shared.Some? && forall c: Id :: OfCall(after.log, c) == OfCall(s.log, c)
  {
    hide OfCall;
    var after := TryRefresh(s);
    if after.log != s.log { Snoc(s.log, after.log[|s.log|]); }
  }

  /** Bookkeeping before the move touches no other call's history. */
  lemma MovesAfter(s: Page, mid: Page, after: Page, id: Id)
    requires Moves(mid, after, id) && mid.calls == s.calls && s.next <= mid.next
    requires forall c: Id :: c != id ==> OfCall(mid.log, c) == OfCall(s.log, c)
    ensures Moves(s, after, id)
  {
    hide OfCall, Fits;
  }

  lemma PrepareMoves(s: Page, id: Id, mutating: bool)
    requires id < s.next && Prelude(OfCall(s.log, id))
    ensures Moves(s, Prepare(s, id, mutating), id)
  {
    hide OfCall, Prelude;
    if !mutating { SendMoves(s, id, AwaitResponse); }
  }

  lemma SendMoves(s: Page, id: Id, c: Call)
    requires id < s.next && (c.AwaitResponse? ==> Prepared(OfCall(s.log, id))) && (c.AwaitRetry? ==> Refreshed(OfCall(s.log, id)))
    requires c.AwaitResponse? || c.AwaitRetry?
    ensures Moves(s, Send(s, id, c), id)
  {
    hide OfCall, Prepared, Refreshed;
    Snoc(s.log, Sent(id, s.access));
    var h := OfCall(s.log, id);
    assert (h + [Sent(id, s.access)])[..|h|] == h;
    assert Refreshed(h) ==> |h| >= 3 by { RefreshedLong(h); }
  }

  lemma RefreshedLong(h: seq<Entry>)
    ensures Refreshed(h) ==> |h| >= 3
  {
  }

  lemma BeginMoves(s: Page, mutating: bool, expiring: bool)
    requires FetchesOk(s) && s.next !in s.calls
    ensures Moves(s, Begin(s, mutating, expiring), s.next)
  {
    hide OfCall, TryRefresh, Prepare;
    var s1 := s.(next := s.next + 1);
    assert OfCall(s.log, s.next) == [];
    TryRefreshLogs(s1);
    PrepareMoves(s1, s.next, mutating);
    MovesAfter(s, s1, Prepare(s1, s.next, mutating), s.next);
  }

  lemma ToldMoves(s: Page, id: Id, told: Entry)
    requires FetchesOk(s) && id in s.calls && s.calls[id].AwaitProactive? && told.Told? && told.call == id
    ensures Moves(s, Prepare(s.(log := s.log + [told]), id, s.calls[id].mutating), id)
  {
    hide OfCall, Prepare, Fits, Send, Prelude;
    var s1 := s.(log := s.log + [told]);
    Snoc(s.log, told);
    ToldFits(s.calls[id], OfCall(s.log, id), told);
    PrepareMoves(s1, id, s.calls[id].mutating);
    MovesAfter(s, s1, Prepare(s1, id, s.calls[id].mutating), id);
  }

  lemma RetryMoves(s: Page, id: Id, told: Entry)
    requires FetchesOk(s) && id in s.calls && s.calls[id].AwaitRefresh? && told.Told? && told.call == id && told.answer
    ensures Moves(s, Send(s.(log := s.log + [told]), id, AwaitRetry), id)
  {
    hide OfCall, Fits, Send, Refreshed;
    var s1 := s.(log := s.log + [told]);
    Snoc(s.log, told);
    ToldFits(s.calls[id], OfCall(s.log, id), told);
    SendMoves(s1, id, AwaitRetry);
    MovesAfter(s, s1, Send(s1, id, AwaitRetry), id);
  }

  lemma EndMoves(s: Page, id: Id, told: Entry)
    requires FetchesOk(s) && id in s.calls && told.Told? && told.call == id
    requires s.calls[id].AwaitDirect? || (s.calls[id].AwaitRefresh? && !told.answer)
    ensures Moves(s, s.(log := s.log + [told], calls := s.calls[id := Finished]), id)
  {
    hide OfCall, RetriesOnce, Complete;
    Snoc(s.log, told);
    ToldFits(s.calls[id], OfCall(s.log, id), told);
  }

  lemma StaysMoves(s: Page, id: Id)
    requires FetchesOk(s) && id in s.calls
    ensures Moves(s, s, id)
  {
    hide OfCall, Fits;
  }

  lemma WakeMoves(s: Page, id: Id)
    requires FetchesOk(s) && id in s.calls
    ensures Moves(s, OnWake(s, id), id)
  {
    hide OfCall, Prepare, Fits, Send, Moves, FetchesOk;
    StaysMoves(s, id);
    match s.calls[id]
    case AwaitProactive(p, mutating) =>
      if p in s.promises && s.promises[p].Settled? { ToldMoves(s, id, Told(id, p, s.promises[p].answer)); }
    case AwaitCsrf =>
      CsrfMoves(s, id);
    case AwaitRefresh(p) =>
      if p in s.promises && s.promises[p].Settled? {
        if s.promises[p].answer {
          RetryMoves(s, id, Told(id, p, true));
        } else {
          EndMoves(s, id, Told(id, p, false));
        }
      }
    case AwaitDirect(p) => if p in s.promises && s.promises[p].Settled? { EndMoves(s, id, Told(id, p, s.promises[p].answer)); }
    case _ =>
  }

  lemma CsrfMoves(s: Page, id: Id)
    requires FetchesOk(s) && id in s.calls && s.calls[id].AwaitCsrf?
    ensures Moves(s, OnWake(s, id), id)
  {
    hide OfCall, Send, Prelude;
    var s1 := s.(log := s.log + [Headers(id)]);
    Snoc(s.log, Headers(id));
    var h := OfCall(s.log, id);
    assert (h + [Headers(id)])[..|h|] == h;
    SendMoves(s1, id, AwaitResponse);
    MovesAfter(s, s1, Send(s1, id, AwaitResponse), id);
  }

  lemma ToldFits(c: Call, h: seq<Entry>, told: Entry)
    requires Fits(c, h) && told.Told?
    ensures c.AwaitProactive? ==> Prelude(h + [told])
    ensures c.AwaitRefresh? && told.answer ==> Refreshed(h + [told])
    ensures c.AwaitDirect? || (c.AwaitRefresh? && !told.answer) ==> Complete(h + [told])
  {
    assert (h + [told])[..|h|] == h;
  }

  lemma ResponseMoves(s: Page, id: Id, status: Option<nat>)
    requires FetchesOk(s) && id in s.calls
    ensures Moves(s, OnResponse(s, id, status), id)
  {
    hide OfCall, TryRefresh;
    var h := OfCall(s.log, id);
    if status.Some? {
      var got := Got(id, status.value);
      Snoc(s.log, got);
      TryRefreshLogs(s.(log := s.log + [got]));
      assert (h + [got])[..|h|] == h;
    }
  }

  lemma StepFetches(s: Page, e: Event)
    requires PageOk(s) && FetchesOk(s)
    ensures FetchesOk(Apply(s, e))
  {
    hide PageOk, Moves, TryRefresh, Begin, OnWake, OnResponse, OfCall, Fits;
    match e
    case StartFetch(mutating, expiring) => BeginMoves(s, mutating, expiring); MovesOk(s, Begin(s, mutating, expiring), s.next);
    case StartRefresh => DirectFetches(s);
    case Wake(id) =>
      if id in s.calls { WakeMoves(s, id); MovesOk(s, OnWake(s, id), id); } else { assert OnWake(s, id) == s by { NoCall(s, id); } }
    case Response(id, status) =>
      if id in s.calls { ResponseMoves(s, id, status); MovesOk(s, OnResponse(s, id, status), id); } else { NoCall(s, id); }
    case _ =>
  }

  lemma NoCall(s: Page, id: Id)
    requires id !in s.calls
    ensures OnWake(s, id) == s && forall status :: OnResponse(s, id, status) == s
  {
  }

  lemma DirectFetches(s: Page)
    requires FetchesOk(s)
    ensures FetchesOk(Apply(s, StartRefresh))
  {
    hide OfCall, TryRefresh;
    TryRefreshLogs(s.(next := s.next + 1));
  }

  lemma {:induction false} RunFetches(es: seq<Event>)
    ensures FetchesOk(Run(INIT, es))
  {
    hide PageOk, Apply;
    InitOk();
    if es == [] {
      assert forall c :: OfCall(INIT.log, c) == [];
    } else {
      RunOk(INIT, es[..|es| - 1]);
      RunFetches(es[..|es| - 1]);
      StepFetches(Run(INIT, es[..|es| - 1]), es[|es| - 1]);
    }
  }

  function Requests(h: seq<Entry>): nat {
    if h == [] then 0 else Requests(h[..|h| - 1]) + if h[|h| - 1].Sent? then 1 else 0
  }

  lemma {:induction false} NoRequests(h: seq<Entry>)
    requires forall i :: 0 <= i < |h| ==> !h[i].Sent?
    ensures Requests(h) == 0
  {
    if h != [] { NoRequests(h[..|h| - 1]); }
  }

  // --- The whole course of a call -------------------------------------------------------------------

  /**
   * After k opening entries: a request; its status; only after a 401, the answer of a refresh; only after a successful one,
   * and then at once, a second request; its status; and nothing more.
   */
  ghost predicate Course(h: seq<Entry>, k: nat) {
    && k <= |h| <= k + 5 && (forall i :: 0 <= i < k ==> h[i].Told? || h[i].Headers?)
    && (|h| > k ==> h[k].Sent?)
    && (|h| > k + 1 ==> h[k + 1].Got?)
    && (|h| > k + 2 ==> h[k + 1].status == 401 && h[k + 2].Told? && (h[k + 2].answer <==> |h| > k + 3))
    && (|h| > k + 3 ==> h[k + 3].Sent?)
    && (|h| > k + 4 ==> h[k + 4].Got?)
  }

  lemma PreparedShort(h: seq<Entry>)
    requires Prepared(h)
    ensures |h| <= 2 && forall i :: 0 <= i < |h| ==> h[i].Told? || h[i].Headers?
  {
  }

  lemma SentOnceCourse(h: seq<Entry>)
    requires SentOnce(h)
    ensures 1 <= |h| <= 3 && Course(h, |h| - 1)
  {
    hide Prepared;
    PreparedShort(h[..|h| - 1]);
  }

  lemma UnauthorizedCourse(h: seq<Entry>)
    requires |h| >= 2 && h[|h| - 1].Got? && SentOnce(h[..|h| - 1])
    ensures 2 <= |h| <= 4 && Course(h, |h| - 2)
  {
    hide SentOnce;
    var front := h[..|h| - 1];
    SentOnceCourse(front);
    assert forall i :: 0 <= i < |front| ==> front[i] == h[i];
  }

  lemma ToldCourse(h: seq<Entry>)
    requires |h| >= 3 && h[|h| - 1].Told? && !h[|h| - 1].answer && Unauthorized(h[..|h| - 1])
    ensures 3 <= |h| <= 5 && Course(h, |h| - 3)
  {
    hide SentOnce;
    var front := h[..|h| - 1];
    UnauthorizedCourse(front);
    assert forall i :: 0 <= i < |front| ==> front[i] == h[i];
  }

  lemma SentTwiceCourse(h: seq<Entry>)
    requires SentTwice(h)
    ensures 4 <= |h| <= 6 && Course(h, |h| - 4) && h[|h| - 1].Sent?
  {
    hide SentOnce;
    var first := h[..|h| - 1][..|h| - 2];
    UnauthorizedCourse(first);
    assert forall i :: 0 <= i < |first| ==> first[i] == h[i];
    assert h[..|h| - 1][|h| - 2] == h[|h| - 2];
  }

  lemma AnsweredTwiceCourse(h: seq<Entry>)
    requires |h| >= 2 && h[|h| - 1].Got? && SentTwice(h[..|h| - 1])
    ensures 5 <= |h| <= 7 && Course(h, |h| - 5)
  {
    hide SentTwice;
    var front := h[..|h| - 1];
    SentTwiceCourse(front);
    assert forall i :: 0 <= i < |front| ==> front[i] == h[i];
  }

  lemma FitsCourse(c: Call, h: seq<Entry>) returns (k: nat)
    requires Fits(c, h)
    ensures k <= 2 && Course(h, k)
  {
    hide SentOnce, Unauthorized, SentTwice;
    if Prelude(h) {
      k := |h|;
    } else if SentOnce(h) {
      SentOnceCourse(h);
      k := |h| - 1;
    } else if SentTwice(h) {
      SentTwiceCourse(h);
      k := |h| - 4;
    } else if c.AwaitRefresh? {
      IsUnauthorized(h);
      UnauthorizedCourse(h);
      k := |h| - 2;
    } else if h[|h| - 1].Got? && SentOnce(h[..|h| - 1]) {
      UnauthorizedCourse(h);
      k := |h| - 2;
    } else if h[|h| - 1].Got? && SentTwice(h[..|h| - 1]) {
      AnsweredTwiceCourse(h);
      k := |h| - 5;
    } else {
      ToldCourse(h);
      k := |h| - 3;
    }
  }

  lemma IsUnauthorized(h: seq<Entry>)
    requires Unauthorized(h)
    ensures |h| >= 2 && h[|h| - 1].Got? && SentOnce(h[..|h| - 1])
  {
  }

  ghost predicate FollowsCourse(h: seq<Entry>) { exists k: nat :: k <= 2 && Course(h, k) }

  lemma CourseCounts(h: seq<Entry>, k: nat)
    requires Course(h, k)
    ensures Requests(h) == if |h| <= k then 0 else if |h| <= k + 3 then 1 else 2
  {
    var n := if |h| < k then |h| else k;
    NoRequests(h[..k]);
    if |h| > k { assert h[..k + 1][..k] == h[..k]; }
    if |h| > k + 1 { assert h[..k + 2][..k + 1] == h[..k + 1]; }
    if |h| > k + 2 { assert h[..k + 3][..k + 2] == h[..k + 2]; }
    if |h| > k + 3 { assert h[..k + 4][..k + 3] == h[..k + 3]; }
    if |h| > k + 4 { assert h[..k + 5][..k + 4] == h[..k + 4]; }
    assert h[..|h|] == h;
  }

  /** At i the call is answered 401 and next told that the refresh it waited for succeeded. */
  ghost predicate RefreshedAfter401(h: seq<Entry>, i: nat) {
    i + 1 < |h| && h[i].Got? && h[i].status == 401 && h[i + 1].Told? && h[i + 1].answer
  }

  /**
   * In every run, a call follows its course, and it has sent two requests if and only if its first was answered 401 and the
   * refresh it then waited for succeeded.
   */
  lemma RetriedIffRefreshed(es: seq<Event>, id: Id)
    ensures var h := OfCall(Run(INIT, es).log, id);
            && FollowsCourse(h)
            && (Requests(h) == 2 <==> exists i: nat :: RefreshedAfter401(h, i))
  {
    hide Run, Fits, OfCall, Requests;
    RunFetches(es);
    var s := Run(INIT, es);
    var h := OfCall(s.log, id);
    var k: nat := 0;
    if id in s.calls { k := FitsCourse(s.calls[id], h); }
    CourseFollowed(h, k);
    CourseCounts(h, k);
    if |h| > k + 3 { assert RefreshedAfter401(h, k + 1); }
    OnlyAfterFirst(h, k);
  }

  lemma CourseFollowed(h: seq<Entry>, k: nat)
    requires k <= 2 && Course(h, k)
    ensures FollowsCourse(h)
  {
  }

  lemma OnlyAfterFirst(h: seq<Entry>, k: nat)
    requires Course(h, k)
    ensures forall i: nat :: RefreshedAfter401(h, i) ==> |h| > k + 3
  {
    forall i: nat | RefreshedAfter401(h, i)
      ensures i == k + 1
    {
    }
  }

  /**
   * In every run, each call of `apiFetch` sends at most two requests for its path, the second only after the first was
   * answered 401 and the refresh the call then waited for succeeded.
   */
  lemma AtMostOneRetry(es: seq<Event>, id: Id)
    ensures RetriesOnce(OfCall(Run(INIT, es).log, id))
    ensures Requests(OfCall(Run(INIT, es).log, id)) <= 2
  {
    hide Run, OfCall, Requests;
    RetriedIffRefreshed(es, id);
    var h := OfCall(Run(INIT, es).log, id);
    var k: nat :| k <= 2 && Course(h, k);
    CourseCounts(h, k);
  }
}
