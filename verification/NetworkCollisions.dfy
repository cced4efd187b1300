/** Each kind of collision breaks the match of tables and host: one run from the start for each. */
module NetworkCollisions {
  import opened Basics
  import opened Ipv4
  import opened Addressing
  import opened NetworkTables
  import opened NetworkSteps
  import opened NetworkInterleaved
  import opened NetworkScripts
  import opened NetworkBridges
  import opened NetworkConsistency
  import opened NetworkMeetings

  const USER: Actor := Actor(7, false)
  const BLOCK: Net := Net(0x0A00_0000, 24)

  // --- A delete next to a create ----------------------------------------------------------------

  /** The network is deleted between the create's insert and its bridge. */
  function DeletedWhileCreated(): seq<Event> {
    EnterWith(REQUEST, 0) + Twice(0) + DeleteEnter(USER, 0, 1) + (Go(1) + Go(1) + Go(1) + Go(0))
  }

  lemma BridgeWithoutRow()
    ensures var w := Run(INIT, DeletedWhileCreated());
            w.db.networks == map[] && w.host.bridges == {100} && !BridgesHaveRows(w.db.networks, w.host.bridges)
  {
    hide Run, EnterWith, Twice, DeleteEnter, Start, TablesOk;
    RequestAccepted();
    BareHasRoom(INIT);
    CheckRuns(INIT, REQUEST, 7, BLOCK);
    var w1 := Joined(INIT, Create(DrawBridge(7, BLOCK)));
    InsertRuns(w1, 0, 7, BLOCK);
    var e2 := EnterWith(REQUEST, 0) + Twice(0);
    RunConcat(INIT, EnterWith(REQUEST, 0), Twice(0));
    var w2 := Run(w1, Twice(0));
    DeleteChecks(w2, USER, 0);
    RunConcat(INIT, e2, DeleteEnter(USER, 0, 1));
    TablesAlways(e2 + DeleteEnter(USER, 0, 1));
    LateBridge(Joined(w2, Delete(MarkDeleting(0, 100))), 0, 1, 0, 100);
    RunConcat(INIT, e2 + DeleteEnter(USER, 0, 1), Go(1) + Go(1) + Go(1) + Go(0));
  }

  lemma TablesAlways(es: seq<Event>)
    ensures TablesOk(Run(INIT, es).db)
  {
    hide Run;
    InitOk();
    RunKeepsWorld(INIT, es);
  }

  // --- A network and a container to start from -----------------------------------------------------

  const ACTIVE: Network := Network(7, 100, BLOCK, NetworkState.Active)

  function Setup(): seq<Event> { CreateEvents(0) + [NewContainer(500)] }

  const READY: World := World(Db(map[0 := ACTIVE], map[], map[1 := 500], 101, 2), Host({100}, map[]), map[], 1)

  lemma SetupRuns()
    ensures Run(INIT, Setup()) == READY
  {
    hide Run, CreateEvents;
    CreateRuns(INIT);
    RunSnoc(INIT, CreateEvents(0), NewContainer(500));
  }

  const LOADED: Loaded := Loaded(0, BLOCK, 100, 1)

  /** 10.0.0.2, the first address given out. */
  const FIRST: Address := 0x0A00_0002

  const ROW: Member := Member(0, 1, PrintAddress(FIRST), 1, Attaching)

  lemma FirstIsFree(used: set<nat>)
    requires used == {}
    ensures LowestFreeAddress(BLOCK, used) == Some(FIRST) && LowestFree(1, MAX_SLOT, {}) == Some(1)
  {
    assert Pow2(8) == 256;
    assert BLOCK.Size() == 256 && BLOCK.Network() == 0x0A00_0000;
  }

  lemma NothingUsed(db: Db)
    requires db.members == map[]
    ensures UsedIn(db.members, 0) == {} && UsedSlots(db.members, 1) == {} && MembersOf(db.members, 0) == {}
  {
  }

  lemma MayAddFirst(db: Db)
    requires db.members == map[] && 0 in db.networks && db.networks[0] == ACTIVE && 1 in db.containers && db.containers[1] == 500
    ensures MayAdd(db, USER, LOADED, 500, FIRST, 1)
  {
    hide LowestFreeAddress, LowestFree, UsedIn, UsedSlots, MembersOf;
    NothingUsed(db);
    FirstIsFree(UsedIn(db.members, 0));
  }

  // --- A delete next to an add ------------------------------------------------------------------------

  /** The container is added after the delete has found the network empty. */
  function AddedWhileDeleted(): seq<Event> { Setup() + AddNextToDelete(USER, USER, LOADED, 1) }

  lemma NicWithoutBridge()
    ensures var w := Run(INIT, AddedWhileDeleted());
            && w.db.members == map[2 := ROW.(state := MemberState.Active)]
            && w.host.nics == map[(500, 1) := 100] && w.host.bridges == {} && !MembersAreLive(w.db.networks, w.db.members)
  {
    hide Run, Setup, AddNextToDelete, MembersOf, MayAdd;
    SetupRuns();
    MayAddFirst(READY.db);
    NothingUsed(READY.db);
    AddMeetsDelete(READY, USER, USER, LOADED, 500, FIRST, 1);
    RunConcat(INIT, Setup(), AddNextToDelete(USER, USER, LOADED, 1));
  }

  // --- A remove next to an add --------------------------------------------------------------------------

  /** The container is removed between the add's insert and its NIC. */
  function RemovedWhileAdded(): seq<Event> {
    Setup() + AddEnter(USER, 0, 1, 1) + Go(1) + RemoveEnter(USER, 0, 1, 2) + (Go(2) + Go(2) + Go(2) + Go(1))
  }

  lemma NicWithoutRow()
    ensures var w := Run(INIT, RemovedWhileAdded());
            w.db.members == map[] && w.host.nics == map[(500, 1) := 100] && !NicsHaveRows(w.db, w.host.nics)
  {
    hide Run, Setup, AddEnter, RemoveEnter, PrintAddress, TablesOk;
    SetupRuns();
    MayAddFirst(READY.db);
    AddChecks(READY, USER, LOADED, 500, FIRST, 1);
    RunConcat(INIT, Setup(), AddEnter(USER, 0, 1, 1));
    var w1 := Joined(READY, Add(InsertMembership(LOADED, 500, FIRST, 1)));
    InsertMemberRuns(w1, 1, LOADED, 500, FIRST, 1);
    var e2 := Setup() + AddEnter(USER, 0, 1, 1) + Go(1);
    RunConcat(INIT, Setup() + AddEnter(USER, 0, 1, 1), Go(1));
    var w2 := Run(w1, Go(1));
    assert w2.db.members == map[2 := ROW];
    RemoveChecks(w2, USER, 2, 500);
    RunConcat(INIT, e2, RemoveEnter(USER, 0, 1, 2));
    TablesAlways(e2 + RemoveEnter(USER, 0, 1, 2));
    LateAttach(Joined(w2, Remove(MarkDetaching(2, ROW, 500))), 1, 2, 2, ROW, 500, 100);
    RunConcat(INIT, e2 + RemoveEnter(USER, 0, 1, 2), Go(2) + Go(2) + Go(2) + Go(1));
  }

  // --- Two removes ----------------------------------------------------------------------------------------

  const OTHER_USER: Actor := Actor(8, false)
  const OTHER_REQUEST: Request := CreateNetwork(OTHER_USER, true, Some(BLOCK))
  const OTHER: Network := Network(8, 101, BLOCK, NetworkState.Active)
  const TWO: Networks := map[0 := ACTIVE, 2 := OTHER]
  const JOINED: Member := ROW.(state := MemberState.Active)
  const TWO_BRIDGES: Host := Host({100, 101}, map[])

  function OtherCreated(): seq<Event> { EnterWith(OTHER_REQUEST, 1) + Finish(1) }

  lemma OtherRuns()
    ensures Run(READY, OtherCreated()) == World(Db(TWO, map[], map[1 := 500], 102, 3), TWO_BRIDGES, map[], 2)
  {
    hide Run, EnterWith, Finish, Start;
    OtherAccepted();
    OtherHasRoom();
    CheckRuns(READY, OTHER_REQUEST, 8, BLOCK);
    var w1 := Joined(READY, Create(DrawBridge(8, BLOCK)));
    StoreRuns(w1, 1, 8, BLOCK);
    RunConcat(READY, EnterWith(OTHER_REQUEST, 1), Finish(1));
  }

  lemma OtherAccepted()
    ensures Start(OTHER_REQUEST) == Continue(Create(CountNode(8, BLOCK)))
  {
    assert PRIVATE_RANGES[0] == Net(0x0A00_0000, 8);
    assert PRIVATE_RANGES[0].Contains(BLOCK.Network());
  }

  lemma OtherHasRoom()
    ensures |Live(READY.db.networks)| == 1 && LiveOf(READY.db.networks, 8) == {} && !OverlapsOwn(READY.db.networks, 8, BLOCK)
  {
    assert Live(READY.db.networks) == {0};
  }

  function AddEvents(actor: Actor, network: Id, pid: nat): seq<Event> { AddEnter(actor, network, 1, pid) + Go(pid) + Go(pid) + Go(pid) }

  /** From any state without members: the container joins a network, with the first address and slot 1. */
  lemma AddRuns(w: World, actor: Actor, network: Id)
    requires w.db.members == map[] && network in w.db.networks && 1 in w.db.containers && w.db.containers[1] == 500
    requires Owns(actor, w.db.networks[network]) && w.nextPid !in w.procs
    requires w.db.networks[network].state == NetworkState.Active && w.db.networks[network].cidr == BLOCK
    ensures Run(w, AddEvents(actor, network, w.nextPid)) == World(
              w.db.(members := map[w.db.issued := JOINED.(network := network)], issued := w.db.issued + 1),
              w.host.(nics := w.host.nics[(500, 1) := w.db.networks[network].bridge]), w.procs, w.nextPid + 1)
  {
    hide Run, AddEnter, PrintAddress, LowestFreeAddress, LowestFree, UsedIn, UsedSlots, MembersOf;
    var pid, net := w.nextPid, Loaded(network, BLOCK, w.db.networks[network].bridge, 1);
    NobodyThere(w.db, network);
    FirstIsFree(UsedIn(w.db.members, network));
    AddChecks(w, actor, net, 500, FIRST, 1);
    var w1 := Joined(w, Add(InsertMembership(net, 500, FIRST, 1)));
    InsertMemberRuns(w1, pid, net, 500, FIRST, 1);
    var enter := AddEnter(actor, network, 1, pid);
    RunConcat(w, enter, Go(pid));
    var w2 := Run(w1, Go(pid));
    AttachRuns(w2, pid, w.db.issued, (500, 1), net.bridge);
    RunConcat(w, enter + Go(pid), Go(pid));
    var w3 := Run(w2, Go(pid));
    JoinRuns(w3, pid, w.db.issued);
    RunConcat(w, enter + Go(pid) + Go(pid), Go(pid));
    assert w3.procs - {pid} == w.procs;
  }

  lemma NobodyThere(db: Db, network: Id)
    requires db.members == map[]
    ensures UsedIn(db.members, network) == {} && UsedSlots(db.members, 1) == {} && MembersOf(db.members, network) == {}
  {
  }

  /** The same removal is asked for twice; one is done before the other unplugs the NIC it has read about. */
  function RemovedTwice(): seq<Event> {
    Setup() + OtherCreated() + AddEvents(USER, 0, 2) + BothReading() + RemoveNextToRemove(3, 4, OTHER_USER, OTHER_LOADED, 5)
  }

  const OTHER_LOADED: Loaded := Loaded(2, BLOCK, 101, 1)

  function BothReading(): seq<Event> { RemoveEnter(USER, 0, 1, 3) + RemoveEnter(USER, 0, 1, 4) + Go(3) + Go(4) }

  const MEMBER_IN: World := World(Db(TWO, map[3 := JOINED], map[1 := 500], 102, 4), TWO_BRIDGES.(nics := map[(500, 1) := 100]), map[], 3)

  const DETACHING: Proc := Remove(Detach(3, JOINED, 500))

  lemma BothReadingRuns()
    ensures Run(MEMBER_IN, BothReading()) == World(
              MEMBER_IN.db.(members := map[3 := ROW.(state := Detaching)]), MEMBER_IN.host, map[3 := DETACHING, 4 := DETACHING], 5)
  {
    hide Run, RemoveEnter, PrintAddress;
    var w := MEMBER_IN;
    RemoveChecks(w, USER, 3, 500);
    var w1 := Joined(w, Remove(MarkDetaching(3, JOINED, 500)));
    RemoveChecks(w1, USER, 3, 500);
    var e1, e2 := RemoveEnter(USER, 0, 1, 3), RemoveEnter(USER, 0, 1, 4);
    RunConcat(w, e1, e2);
    var w2 := Joined(w1, Remove(MarkDetaching(3, JOINED, 500)));
    LeaveRuns(w2, 3, 3, JOINED, 500);
    RunConcat(w, e1 + e2, Go(3));
    var w3 := Run(w2, Go(3));
    LeaveRuns(w3, 4, 3, JOINED, 500);
    RunConcat(w, e1 + e2 + Go(3), Go(4));
  }

  lemma MemberWithoutNic()
    ensures var w := Run(INIT, RemovedTwice());
            && w.db.members == map[4 := JOINED.(network := 2)] && w.host.nics == map[]
            && !ActiveHaveNics(w.db.members, w.db.containers, w.host.nics)
  {
    hide Run, Setup, OtherCreated, AddEvents, BothReading, RemoveNextToRemove, PrintAddress, TablesOk, MayAdd;
    SetupRuns();
    OtherRuns();
    RunConcat(INIT, Setup(), OtherCreated());
    var e1 := Setup() + OtherCreated();
    AddRuns(Run(INIT, e1), USER, 0);
    RunConcat(INIT, e1, AddEvents(USER, 0, 2));
    var e2 := e1 + AddEvents(USER, 0, 2);
    assert Run(INIT, e2) == MEMBER_IN;
    BothReadingRuns();
    RunConcat(INIT, e2, BothReading());
    var e3 := e2 + BothReading();
    var w3 := Run(INIT, e3);
    TablesAlways(e3);
    assert DeleteMemberRow(w3.db, 0, 1).members == map[];
    MayAddOther(DeleteMemberRow(w3.db, 0, 1));
    RemoveMeetsRemove(w3, 3, 4, 3, JOINED, 500, OTHER_USER, OTHER_LOADED, FIRST);
    RunConcat(INIT, e3, RemoveNextToRemove(3, 4, OTHER_USER, OTHER_LOADED, 5));
    assert w3.host.nics - {(500, 1)} == map[];
  }

  lemma MayAddOther(db: Db)
    requires db.members == map[] && 2 in db.networks && db.networks[2] == OTHER && 1 in db.containers && db.containers[1] == 500
    ensures MayAdd(db, OTHER_USER, OTHER_LOADED, 500, FIRST, 1)
  {
    hide LowestFreeAddress, LowestFree, UsedIn, UsedSlots, MembersOf;
    NobodyThere(db, 2);
    FirstIsFree(UsedIn(db.members, 2));
  }

  // --- Two deletes ------------------------------------------------------------------------------------------

  /** The same deletion is asked for twice; between the two, 2^32 draws bring the bridge number back. */
  function DeletedTwice(): seq<Event> {
    CreateEvents(0) + DeleteEnter(USER, 0, 1) + DeleteEnter(USER, 0, 2) + Go(1) + Go(2) + Go(1) + Go(1)
    + Spend(3, WRAP - 1) + CreateEvents(WRAP + 2) + Go(2)
  }

  lemma NetworkWithoutBridge()
    ensures var w := Run(INIT, DeletedTwice());
            w.db.networks == map[1 := ACTIVE] && w.host.bridges == {} && !ActiveHaveBridges(w.db.networks, w.host.bridges)
    ensures CountDraws(DeletedTwice()) == WRAP + 1
  {
    hide Run, CreateEvents, DeleteEnter, Spend, AsI32;
    WrapMod(100, 100 + WRAP);
    SmallNumber();
    CreateRuns(INIT);
    var w0 := Run(INIT, CreateEvents(0));
    DeleteChecks(w0, USER, 0);
    RunConcat(INIT, CreateEvents(0), DeleteEnter(USER, 0, 1));
    var w1 := Joined(w0, Delete(MarkDeleting(0, 100)));
    DeleteChecks(w1, USER, 0);
    var e1 := CreateEvents(0) + DeleteEnter(USER, 0, 1);
    RunConcat(INIT, e1, DeleteEnter(USER, 0, 2));
    var w2 := Joined(w1, Delete(MarkDeleting(0, 100)));
    var e2 := e1 + DeleteEnter(USER, 0, 2);
    MarkRuns(w2, 1, 0, 100);
    RunConcat(INIT, e2, Go(1));
    var w3 := Run(w2, Go(1));
    MarkRuns(w3, 2, 0, 100);
    RunConcat(INIT, e2 + Go(1), Go(2));
    var w4 := Run(w3, Go(2));
    UnbridgeRuns(w4, 1, 0, 100);
    RunConcat(INIT, e2 + Go(1) + Go(2), Go(1));
    var w5 := Run(w4, Go(1));
    DropRuns(w5, 1, 0);
    RunConcat(INIT, e2 + Go(1) + Go(2) + Go(1), Go(1));
    var w6 := Run(w5, Go(1));
    assert w6 == World(Db(map[], map[], map[], 101, 1), Host({}, map[]), map[2 := Delete(RemoveBridge(0, 100))], 3);
    LateRuns(w6);
    var e6 := e2 + Go(1) + Go(2) + Go(1) + Go(1);
    RunConcat(INIT, e6, Spend(3, WRAP - 1));
    RunConcat(INIT, e6 + Spend(3, WRAP - 1), CreateEvents(WRAP + 2));
    RunConcat(INIT, e6 + Spend(3, WRAP - 1) + CreateEvents(WRAP + 2), Go(2));
    SequenceCountsDraws(DeletedTwice());
  }

  lemma SmallNumber()
    ensures AsI32(100) == 100
  {
  }

  /** A new network gets the old number, and the late delete removes its bridge. */
  lemma LateRuns(w: World)
    requires w == World(Db(map[], map[], map[], 101, 1), Host({}, map[]), map[2 := Delete(RemoveBridge(0, 100))], 3)
    ensures var after := Run(Run(Run(w, Spend(3, WRAP - 1)), CreateEvents(WRAP + 2)), Go(2));
            && after.db.networks == map[1 := ACTIVE] && after.host.bridges == {} && after.db.nextBridge == 101 + WRAP
            && !ActiveHaveBridges(after.db.networks, after.host.bridges)
  {
    hide Run, CreateEvents, Spend, AsI32;
    WrapMod(100, 100 + WRAP);
    SmallNumber();
    SpendRuns(w, WRAP - 1);
    var w1 := Run(w, Spend(3, WRAP - 1));
    CreateRuns(w1);
    var w2 := Run(w1, CreateEvents(WRAP + 2));
    LateDelete(w2, 2, 0, 100, 1);
  }
}
