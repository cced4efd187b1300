/** Runs in which creates overlap in time: how far the limits are exceeded, and blocks of one owner that overlap. */
module NetworkBursts {
  import opened Basics
  import opened Ipv4
  import opened Addressing
  import opened NetworkTables
  import opened NetworkSteps
  import opened NetworkInterleaved
  import opened NetworkLimits
  import opened NetworkScripts

  /** Who sends the requests: one user, many users, or one user who always asks for the same block. */
  datatype Load = OneUser | ManyUsers | SameBlock

  /** The blocks of prefix 24 in 10.0.0.0/8. */
  const BLOCKS: nat := 0x1_0000

  function Owner(load: Load, j: nat): Id { if load.ManyUsers? then 7 + j else 7 }

  function Block(load: Load, j: nat): Net
    requires j < BLOCKS
  {
    Net(0x0A00_0000 + 256 * (if load.SameBlock? then 0 else j), 24)
  }

  function Req(load: Load, j: nat): Request
    requires j < BLOCKS
  {
    CreateNetwork(Actor(Owner(load, j), false), true, Some(Block(load, j)))
  }

  /** Up to so many stored networks, another request passes the checks. */
  function Cap(load: Load): nat {
    match load
    case OneUser => 4
    case ManyUsers => 99
    case SameBlock => 0
  }

  // --- Blocks ---------------------------------------------------------------------------------

  lemma BlockBounds(load: Load, j: nat)
    requires j < BLOCKS
    ensures Block(load, j).Network() == Block(load, j).addr && Block(load, j).Broadcast() == Block(load, j).addr + 255
  {
    assert Pow2(8) == 256;
    assert Block(load, j).Size() == 256;
    assert Block(load, j).addr % 256 == 0;
  }

  lemma BlocksApart(load: Load, i: nat, j: nat)
    requires i < BLOCKS && j < BLOCKS && i != j && !load.SameBlock?
    ensures !Block(load, i).Contains(Block(load, j).Network()) && !Block(load, j).Contains(Block(load, i).Network())
  {
    hide Net.Network, Net.Broadcast;
    BlockBounds(load, i);
    BlockBounds(load, j);
  }

  lemma Accepted(load: Load, j: nat)
    requires j < BLOCKS
    ensures Start(Req(load, j)) == Continue(Create(CountNode(Owner(load, j), Block(load, j))))
  {
    hide IsPrivateNetworkAddress, Net.Network, Owner;
    BlockIsPrivate(load, j);
  }

  lemma BlockIsPrivate(load: Load, j: nat)
    requires j < BLOCKS
    ensures IsPrivateNetworkAddress(Block(load, j).Network())
  {
    hide Net.Network, Net.Broadcast;
    BlockBounds(load, j);
    TenBounds();
    assert PRIVATE_RANGES[0] == Net(0x0A00_0000, 8);
    assert PRIVATE_RANGES[0].Contains(Block(load, j).Network());
  }

  lemma TenBounds()
    ensures Net(0x0A00_0000, 8).Network() == 0x0A00_0000 && Net(0x0A00_0000, 8).Broadcast() == 0x0AFF_FFFF
  {
    assert Pow2(8) == 256;
    Pow2Sum(8, 8);
    Pow2Sum(16, 8);
    assert Net(0x0A00_0000, 8).Size() == 0x100_0000;
  }

  // --- The worlds passed through -----------------------------------------------------------------

  ghost function Stored(load: Load, k: nat): Networks
    requires k <= BLOCKS
  {
    map j: nat | j < k :: Network(Owner(load, j), FIRST_BRIDGE + j, Block(load, j), NetworkState.Active)
  }

  function Span(lo: nat, n: nat): (s: set<nat>)
    ensures |s| == n && forall k :: k in s <==> lo <= k < lo + n
  {
    if n == 0 then {} else Span(lo, n - 1) + {lo + n - 1}
  }

  ghost function Tables(load: Load, k: nat): Db
    requires k <= BLOCKS
  {
    Db(Stored(load, k), map[], map[], FIRST_BRIDGE + k, k)
  }

  /** Requests `from` to `to - 1` have passed all checks. */
  ghost function Waiting(load: Load, from: nat, to: nat): map<nat, Proc>
    requires to <= BLOCKS
  {
    map j: nat | from <= j < to :: Create(DrawBridge(Owner(load, j), Block(load, j)))
  }

  /** k networks stored, requests k to m - 1 past their checks, request numbers being process numbers. */
  ghost function Crowded(load: Load, k: nat, from: nat, m: nat): World
    requires k <= BLOCKS && m <= BLOCKS
  {
    World(Tables(load, k), Host(Span(FIRST_BRIDGE, k), map[]), Waiting(load, from, m), m)
  }

  lemma StoredCounts(load: Load, k: nat, owner: Id)
    requires k <= BLOCKS
    ensures |Live(Stored(load, k))| == k
    ensures !load.ManyUsers? && owner == 7 ==> |LiveOf(Stored(load, k), owner)| == k
    ensures load.ManyUsers? && owner >= 7 + k ==> LiveOf(Stored(load, k), owner) == {}
  {
    hide Block;
    assert Live(Stored(load, k)) == Span(0, k);
    if !load.ManyUsers? && owner == 7 { assert LiveOf(Stored(load, k), owner) == Span(0, k); }
  }

  // --- One request passes its checks ---------------------------------------------------------------

  lemma PassesOverlap(load: Load, k: nat, m: nat)
    requires k <= m < BLOCKS && k <= Cap(load)
    ensures !OverlapsOwn(Stored(load, k), Owner(load, m), Block(load, m))
  {
    hide Net.Contains, Net.Network, Block;
    forall id | id in Stored(load, k)
      ensures !Block(load, m).Contains(Block(load, id).Network()) && !Block(load, id).Contains(Block(load, m).Network())
    {
      BlocksApart(load, id, m);
    }
  }

  lemma EnterRuns(load: Load, k: nat, m: nat)
    requires k <= m < BLOCKS && k <= Cap(load)
    ensures Run(Crowded(load, k, k, m), EnterWith(Req(load, m), m)) == Crowded(load, k, k, m + 1)
  {
    hide Run, Start, Req, Block, Owner, Stored, Waiting, OverlapsOwn, Live, LiveOf, EnterWith, Span;
    var w := Crowded(load, k, k, m);
    Accepted(load, m);
    RoomForMore(load, k, m);
    PassesOverlap(load, k, m);
    CheckRuns(w, Req(load, m), Owner(load, m), Block(load, m));
    OneMoreWaiting(load, k, m);
  }

  lemma OneMoreWaiting(load: Load, k: nat, m: nat)
    requires k <= m < BLOCKS
    ensures Waiting(load, k, m)[m := Create(DrawBridge(Owner(load, m), Block(load, m)))] == Waiting(load, k, m + 1)
  {
    hide Block, Owner;
  }

  lemma RoomForMore(load: Load, k: nat, m: nat)
    requires k <= m < BLOCKS && k <= Cap(load)
    ensures |Live(Stored(load, k))| < MAX_NETWORKS_PER_NODE
    ensures |LiveOf(Stored(load, k), Owner(load, m))| < MAX_NETWORKS_PER_USER
  {
    hide Live, LiveOf, Stored;
    StoredCounts(load, k, Owner(load, m));
  }

  // --- One request stores its network ----------------------------------------------------------------

  lemma FinishRuns(load: Load, k: nat, m: nat)
    requires k < m <= BLOCKS
    ensures Run(Crowded(load, k, k, m), Finish(k)) == Crowded(load, k + 1, k + 1, m)
  {
    hide Run, AsI32, Block, Owner, Stored, Waiting, Finish, Span;
    var w := Crowded(load, k, k, m);
    NewRow(load, k);
    OneLess(load, k, m);
    StoreRuns(w, k, Owner(load, k), Block(load, k));
  }

  lemma OneLess(load: Load, k: nat, m: nat)
    requires k < m <= BLOCKS
    ensures var w := Waiting(load, k, m);
            k in w && w[k] == Create(DrawBridge(Owner(load, k), Block(load, k))) && w - {k} == Waiting(load, k + 1, m)
    ensures Span(FIRST_BRIDGE, k) + {FIRST_BRIDGE + k} == Span(FIRST_BRIDGE, k + 1)
  {
    hide Block, Owner;
  }

  lemma NewRow(load: Load, k: nat)
    requires k < BLOCKS
    ensures AsI32(FIRST_BRIDGE + k) == FIRST_BRIDGE + k
    ensures forall id :: id in Stored(load, k) ==> Stored(load, k)[id].bridge != FIRST_BRIDGE + k
    ensures Stored(load, k)[k := Network(Owner(load, k), FIRST_BRIDGE + k, Block(load, k), NetworkState.Active)] == Stored(load, k + 1)
  {
    hide Block;
  }

  // --- Bursts ----------------------------------------------------------------------------------------

  /** Requests from .. end - 1 pass their checks, all before any stores its network. */
  function Enters(load: Load, from: nat, end: nat): seq<Event>
    requires end <= BLOCKS
    decreases end
  {
    if end <= from then [] else Enters(load, from, end - 1) + EnterWith(Req(load, end - 1), end - 1)
  }

  function Finishes(from: nat, end: nat): seq<Event>
    decreases end
  {
    if end <= from then [] else Finishes(from, end - 1) + Finish(end - 1)
  }

  lemma {:induction false} EntersRun(load: Load, k: nat, m: nat)
    requires k <= m <= BLOCKS && k <= Cap(load)
    ensures Run(Crowded(load, k, k, k), Enters(load, k, m)) == Crowded(load, k, k, m)
    decreases m
  {
    hide Run, Crowded;
    if m == k {
      RunNone(Crowded(load, k, k, k));
    } else {
      EntersRun(load, k, m - 1);
      EnterRuns(load, k, m - 1);
      RunConcat(Crowded(load, k, k, k), Enters(load, k, m - 1), EnterWith(Req(load, m - 1), m - 1));
    }
  }

  lemma {:induction false} FinishesRun(load: Load, k: nat, j: nat, m: nat)
    requires k <= j <= m <= BLOCKS
    ensures Run(Crowded(load, k, k, m), Finishes(k, j)) == Crowded(load, j, j, m)
    decreases j
  {
    hide Run, Crowded;
    if j == k {
      RunNone(Crowded(load, k, k, m));
    } else {
      FinishesRun(load, k, j - 1, m);
      FinishRuns(load, j - 1, m);
      RunConcat(Crowded(load, k, k, m), Finishes(k, j - 1), Finish(j - 1));
    }
  }

  function Burst(load: Load, from: nat, end: nat): seq<Event>
    requires end <= BLOCKS
  {
    Enters(load, from, end) + Finishes(from, end)
  }

  lemma BurstRuns(load: Load, k: nat, m: nat)
    requires k <= m <= BLOCKS && k <= Cap(load)
    ensures Run(Crowded(load, k, k, k), Burst(load, k, m)) == Crowded(load, m, m, m)
  {
    hide Run, Crowded;
    EntersRun(load, k, m);
    FinishesRun(load, k, m, m);
    RunConcat(Crowded(load, k, k, k), Enters(load, k, m), Finishes(k, m));
  }

  // --- How many are in flight at once ------------------------------------------------------------------

  ghost predicate AtMost(w: World, es: seq<Event>, n: nat) {
    forall i :: 0 <= i <= |es| ==> |Run(w, es[..i]).procs| <= n
  }

  function Begins(es: seq<Event>): nat {
    if es == [] then 0 else Begins(es[..|es| - 1]) + if es[|es| - 1].Begin? then 1 else 0
  }

  lemma {:induction false} BeginsGrow(es: seq<Event>, i: nat)
    requires i <= |es|
    ensures Begins(es[..i]) <= Begins(es)
  {
    if i == |es| {
      assert es[..i] == es;
    } else {
      BeginsGrow(es[..|es| - 1], i);
      assert es[..|es| - 1][..i] == es[..i];
    }
  }

  lemma {:induction false} BeginsConcat(es: seq<Event>, more: seq<Event>)
    ensures Begins(es + more) == Begins(es) + Begins(more)
  {
    if more == [] {
      assert es + more == es;
    } else {
      BeginsConcat(es, more[..|more| - 1]);
      assert (es + more)[..|es + more| - 1] == es + more[..|more| - 1];
    }
  }

  lemma EventAdds(w: World, e: Event)
    ensures |Apply(w, e).procs| <= |w.procs| + if e.Begin? then 1 else 0
  {
    hide Step, Start;
    var after := Apply(w, e);
    match e
    case Begin(_) =>
      assert after.procs.Keys <= w.procs.Keys + {w.nextPid};
      Subset(after.procs.Keys, w.procs.Keys + {w.nextPid});
    case _ =>
      assert after.procs.Keys <= w.procs.Keys;
      Subset(after.procs.Keys, w.procs.Keys);
  }

  lemma {:induction false} RunAdds(w: World, es: seq<Event>)
    ensures |Run(w, es).procs| <= |w.procs| + Begins(es)
  {
    hide Apply;
    if es != [] {
      RunAdds(w, es[..|es| - 1]);
      EventAdds(Run(w, es[..|es| - 1]), es[|es| - 1]);
    }
  }

  lemma AtMostBegun(w: World, es: seq<Event>, n: nat)
    requires |w.procs| + Begins(es) <= n
    ensures AtMost(w, es, n)
  {
    hide Run, Begins;
    forall i | 0 <= i <= |es|
      ensures |Run(w, es[..i]).procs| <= n
    {
      RunAdds(w, es[..i]);
      BeginsGrow(es, i);
    }
  }

  lemma AtMostConcat(w: World, es: seq<Event>, more: seq<Event>, n: nat)
    requires AtMost(w, es, n) && AtMost(Run(w, es), more, n)
    ensures AtMost(w, es + more, n)
  {
    hide Run;
    forall i | 0 <= i <= |es + more|
      ensures |Run(w, (es + more)[..i]).procs| <= n
    {
      if i <= |es| {
        assert (es + more)[..i] == es[..i];
      } else {
        assert (es + more)[..i] == es + more[..i - |es|];
        RunConcat(w, es, more[..i - |es|]);
      }
    }
  }

  lemma {:induction false} ActsBegin(es: seq<Event>, acts: seq<Event>)
    requires forall i :: 0 <= i < |acts| ==> acts[i].Act?
    ensures Begins(es + acts) == Begins(es)
  {
    if acts == [] {
      assert es + acts == es;
    } else {
      ActsBegin(es, acts[..|acts| - 1]);
      assert (es + acts)[..|es + acts| - 1] == es + acts[..|acts| - 1];
    }
  }

  lemma {:induction false} EntersBegin(load: Load, from: nat, end: nat)
    requires from <= end <= BLOCKS
    ensures Begins(Enters(load, from, end)) == end - from
    decreases end
  {
    hide Req;
    if from < end {
      var es := EnterWith(Req(load, end - 1), end - 1);
      EntersBegin(load, from, end - 1);
      BeginsConcat(Enters(load, from, end - 1), es);
      ActsBegin(es[..1], es[1..]);
      assert es == es[..1] + es[1..];
    }
  }

  lemma {:induction false} FinishesBegin(from: nat, end: nat)
    ensures Begins(Finishes(from, end)) == 0
    decreases end
  {
    if from < end {
      FinishesBegin(from, end - 1);
      BeginsConcat(Finishes(from, end - 1), Finish(end - 1));
      ActsBegin([], Finish(end - 1));
      assert [] + Finish(end - 1) == Finish(end - 1);
    }
  }

  lemma WaitingCounts(load: Load, k: nat, m: nat)
    requires k <= m <= BLOCKS
    ensures |Waiting(load, k, m)| == m - k
  {
    hide Block;
    assert Waiting(load, k, m).Keys == Span(k, m - k);
  }

  lemma BurstAtMost(load: Load, k: nat, m: nat)
    requires k <= m <= BLOCKS && k <= Cap(load)
    ensures AtMost(Crowded(load, k, k, k), Burst(load, k, m), m - k)
  {
    hide Run, Begins, Enters, Finishes, AtMost, Waiting, Tables;
    WaitingCounts(load, k, k);
    WaitingCounts(load, k, m);
    var w := Crowded(load, k, k, k);
    EntersBegin(load, k, m);
    AtMostBegun(w, Enters(load, k, m), m - k);
    EntersRun(load, k, m);
    FinishesBegin(k, m);
    AtMostBegun(Crowded(load, k, k, m), Finishes(k, m), m - k);
    AtMostConcat(w, Enters(load, k, m), Finishes(k, m), m - k);
  }

  // --- The runs ------------------------------------------------------------------------------------------

  /** k networks created one at a time. */
  function Fill(load: Load, k: nat): seq<Event>
    requires k <= BLOCKS
  {
    if k == 0 then [] else Fill(load, k - 1) + Burst(load, k - 1, k)
  }

  lemma {:induction false} FillRuns(load: Load, k: nat)
    requires k <= Cap(load)
    ensures Run(INIT, Fill(load, k)) == Crowded(load, k, k, k) && AtMost(INIT, Fill(load, k), 1)
  {
    hide Run, AtMost, Burst, Crowded;
    if k == 0 {
      RunNone(INIT);
      NothingStored(load);
      AtMostBegun(INIT, [], 1);
    } else {
      FillRuns(load, k - 1);
      BurstRuns(load, k - 1, k);
      BurstAtMost(load, k - 1, k);
      RunConcat(INIT, Fill(load, k - 1), Burst(load, k - 1, k));
      AtMostConcat(INIT, Fill(load, k - 1), Burst(load, k - 1, k), 1);
    }
  }

  lemma NothingStored(load: Load)
    ensures Crowded(load, 0, 0, 0) == INIT
  {
  }

  lemma MoreAllowed(w: World, es: seq<Event>, n: nat, m: nat)
    requires AtMost(w, es, n) && n <= m
    ensures AtMost(w, es, m)
  {
    hide Run;
  }

  /** Networks one at a time as long as the limit allows more than one, and then n at once. */
  function FillThenBurst(load: Load, n: nat): seq<Event>
    requires Cap(load) + n <= BLOCKS
  {
    Fill(load, Cap(load)) + Burst(load, Cap(load), Cap(load) + n)
  }

  lemma FillThenBurstRuns(load: Load, n: nat)
    requires n >= 1 && Cap(load) + n <= BLOCKS
    ensures var k := Cap(load); Run(INIT, FillThenBurst(load, n)) == Crowded(load, k + n, k + n, k + n)
    ensures AtMost(INIT, FillThenBurst(load, n), n)
  {
    hide Run, AtMost, Burst, Crowded, Fill;
    var k := Cap(load);
    FillRuns(load, k);
    MoreAllowed(INIT, Fill(load, k), 1, n);
    BurstRuns(load, k, k + n);
    BurstAtMost(load, k, k + n);
    RunConcat(INIT, Fill(load, k), Burst(load, k, k + n));
    AtMostConcat(INIT, Fill(load, k), Burst(load, k, k + n), n);
  }

  lemma InFlightAtMost(es: seq<Event>, who: Option<Id>, n: nat)
    requires AtMost(INIT, es, n)
    ensures AtMostInFlight(es, who, n)
  {
    hide Run, Concerns;
    forall i | 0 <= i < |es|
      ensures |InFlight(Run(INIT, es[..i]), who)| <= n
    {
      var w := Run(INIT, es[..i]);
      assert InFlight(w, who) <= w.procs.Keys;
      Subset(InFlight(w, who), w.procs.Keys);
    }
  }

  /**
   * The bounds are attained for every n, as long as there are blocks: with at most n requests in flight together, a run from
   * the start ends with 99 + n live networks, and another with 4 + n of one user.
   */
  lemma LimitsAreExceeded(n: nat)
    requires 1 <= n <= BLOCKS - 99
    ensures var es := FillThenBurst(ManyUsers, n);
            AtMostInFlight(es, None, n) && |Live(Run(INIT, es).db.networks)| == 99 + n
    ensures var es := FillThenBurst(OneUser, n);
            AtMostInFlight(es, Some(7), n) && |LiveOf(Run(INIT, es).db.networks, 7)| == 4 + n
  {
    hide Run, AtMost, AtMostInFlight, FillThenBurst, Live, LiveOf, Stored, Crowded;
    FillThenBurstRuns(ManyUsers, n);
    StoredInCrowded(ManyUsers, 99 + n);
    InFlightAtMost(FillThenBurst(ManyUsers, n), None, n);
    StoredCounts(ManyUsers, 99 + n, 0);
    FillThenBurstRuns(OneUser, n);
    StoredInCrowded(OneUser, 4 + n);
    InFlightAtMost(FillThenBurst(OneUser, n), Some(7), n);
    StoredCounts(OneUser, 4 + n, 7);
  }

  lemma StoredInCrowded(load: Load, k: nat)
    requires k <= BLOCKS
    ensures Crowded(load, k, k, k).db.networks == Stored(load, k)
  {
    hide Stored, Waiting, Span;
  }

  /** Two creates of one user that ask for the same block at the same time both succeed: a run from the start. */
  lemma RivalsOverlap()
    ensures var networks := Run(INIT, Burst(SameBlock, 0, 2)).db.networks;
            && 0 in networks && 1 in networks && networks[0].owner == networks[1].owner
            && networks[0].state == networks[1].state == NetworkState.Active && networks[0].cidr == networks[1].cidr
            && Overlap(networks[0].cidr, networks[1].cidr)
  {
    hide Run, Burst;
    NothingStored(SameBlock);
    BurstRuns(SameBlock, 0, 2);
    BlockBounds(SameBlock, 0);
    assert Block(SameBlock, 0).Contains(Block(SameBlock, 0).addr);
  }
}
