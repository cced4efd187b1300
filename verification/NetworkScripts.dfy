/** Scripts: what the awaits of one request do to any state, as runs that other runs are put together from. */
module NetworkScripts {
  import opened Basics
  import opened Ipv4
  import opened Addressing
  import opened NetworkTables
  import opened NetworkSteps
  import opened NetworkInterleaved

  // --- Runs piece by piece -----------------------------------------------------------------

  lemma RunSnoc(w: World, es: seq<Event>, e: Event)
    ensures Run(w, es + [e]) == Apply(Run(w, es), e)
  {
    hide Apply;
    assert (es + [e])[..|es|] == es;
  }

  lemma RunNone(w: World)
    ensures Run(w, []) == w
  {
  }

  lemma {:induction false} RunConcat(w: World, es: seq<Event>, more: seq<Event>)
    ensures Run(w, es + more) == Run(Run(w, es), more)
  {
    hide Apply;
    if more == [] {
      assert es + more == es;
    } else {
      var k := |more| - 1;
      RunConcat(w, es, more[..k]);
      assert es + more == (es + more[..k]) + [more[k]];
      RunSnoc(w, es + more[..k], more[k]);
    }
  }

  lemma OneBegin(w: World, es: seq<Event>, req: Request, p: Proc)
    requires Start(req) == Continue(p)
    ensures Run(w, es + [Begin(req)])
            == Run(w, es).(procs := Run(w, es).procs[Run(w, es).nextPid := p], nextPid := Run(w, es).nextPid + 1)
  {
    hide Run, Start;
    RunSnoc(w, es, Begin(req));
  }

  /** One await that goes through, and the request goes on. */
  lemma OneMore(w: World, es: seq<Event>, pid: nat, db: Db, host: Host, next: Proc)
    requires var at := Run(w, es);
             && pid in at.procs && Step(at.db, at.host, at.procs[pid], Done) == Outcome(db, host, Continue(next))
    ensures Run(w, es + [Act(pid, Done)])
            == World(db, host, Run(w, es).procs[pid := next], Run(w, es).nextPid)
  {
    hide Run, Step;
    RunSnoc(w, es, Act(pid, Done));
  }

  /** An await that goes through and ends the request. */
  lemma LastOne(w: World, es: seq<Event>, pid: nat, db: Db, host: Host)
    requires var at := Run(w, es);
             && pid in at.procs && Step(at.db, at.host, at.procs[pid], Done) == Outcome(db, host, Return(Success))
    ensures Run(w, es + [Act(pid, Done)]) == World(db, host, Run(w, es).procs - {pid}, Run(w, es).nextPid)
  {
    hide Run, Step;
    RunSnoc(w, es, Act(pid, Done));
  }

  /** The next await of a request goes through. */
  function Go(pid: nat): seq<Event> { [Act(pid, Done)] }

  lemma Goes(w: World, pid: nat, db: Db, host: Host, next: Proc)
    requires pid in w.procs && Step(w.db, w.host, w.procs[pid], Done) == Outcome(db, host, Continue(next))
    ensures Run(w, [Act(pid, Done)]) == World(db, host, w.procs[pid := next], w.nextPid)
  {
    hide Run, Step;
    RunNone(w);
    OneMore(w, [], pid, db, host, next);
    assert [] + [Act(pid, Done)] == [Act(pid, Done)];
  }

  lemma Ends(w: World, pid: nat, db: Db, host: Host)
    requires pid in w.procs && Step(w.db, w.host, w.procs[pid], Done) == Outcome(db, host, Return(Success))
    ensures Run(w, [Act(pid, Done)]) == World(db, host, w.procs - {pid}, w.nextPid)
  {
    hide Run, Step;
    RunNone(w);
    LastOne(w, [], pid, db, host);
    assert [] + [Act(pid, Done)] == [Act(pid, Done)];
  }

  /** The state with one more request, at this await. */
  ghost function Joined(w: World, p: Proc): World { w.(procs := w.procs[w.nextPid := p], nextPid := w.nextPid + 1) }

  lemma Reads(w: World, es: seq<Event>, now: Proc, next: Proc)
    requires Run(w, es) == Joined(w, now) && Step(w.db, w.host, now, Done) == Outcome(w.db, w.host, Continue(next))
    ensures Run(w, es + [Act(w.nextPid, Done)]) == Joined(w, next)
  {
    hide Run, Step;
    OneMore(w, es, w.nextPid, w.db, w.host, next);
    assert w.procs[w.nextPid := now][w.nextPid := next] == w.procs[w.nextPid := next];
  }

  // --- Creating -------------------------------------------------------------------------------

  function EnterWith(req: Request, pid: nat): seq<Event> {
    [Begin(req), Act(pid, Done), Act(pid, Done), Act(pid, Done)]
  }

  lemma CheckSteps(db: Db, host: Host, owner: Id, cidr: Net)
    requires |Live(db.networks)| < MAX_NETWORKS_PER_NODE && |LiveOf(db.networks, owner)| < MAX_NETWORKS_PER_USER
    requires !OverlapsOwn(db.networks, owner, cidr)
    ensures Step(db, host, Create(CountNode(owner, cidr)), Done) == Outcome(db, host, Continue(Create(CountUser(owner, cidr))))
    ensures Step(db, host, Create(CountUser(owner, cidr)), Done) == Outcome(db, host, Continue(Create(ListOwn(owner, cidr))))
    ensures Step(db, host, Create(ListOwn(owner, cidr)), Done) == Outcome(db, host, Continue(Create(DrawBridge(owner, cidr))))
  {
    hide OverlapsOwn, Live, LiveOf;
  }

  /** From any state with room: a create request passes its checks. */
  lemma CheckRuns(w: World, req: Request, owner: Id, cidr: Net)
    requires Start(req) == Continue(Create(CountNode(owner, cidr)))
    requires |Live(w.db.networks)| < MAX_NETWORKS_PER_NODE && |LiveOf(w.db.networks, owner)| < MAX_NETWORKS_PER_USER
    requires !OverlapsOwn(w.db.networks, owner, cidr)
    ensures Run(w, EnterWith(req, w.nextPid)) == Joined(w, Create(DrawBridge(owner, cidr)))
  {
    hide Run, Start, Step, Apply, OverlapsOwn, Live, LiveOf;
    CheckSteps(w.db, w.host, owner, cidr);
    RunNone(w);
    OneBegin(w, [], req, Create(CountNode(owner, cidr)));
    var a := Act(w.nextPid, Done);
    var e1 := [] + [Begin(req)];
    var e2 := e1 + [a];
    var e3 := e2 + [a];
    assert EnterWith(req, w.nextPid) == e3 + [a];
    hide Joined, EnterWith;
    Reads(w, e1, Create(CountNode(owner, cidr)), Create(CountUser(owner, cidr)));
    Reads(w, e2, Create(CountUser(owner, cidr)), Create(ListOwn(owner, cidr)));
    Reads(w, e3, Create(ListOwn(owner, cidr)), Create(DrawBridge(owner, cidr)));
  }

  function Twice(pid: nat): seq<Event> { [Act(pid, Done)] + [Act(pid, Done)] }

  /** From any state: the request at its draw stores its row. */
  lemma InsertRuns(w: World, pid: nat, owner: Id, cidr: Net)
    requires pid in w.procs && w.procs[pid] == Create(DrawBridge(owner, cidr))
    requires forall id :: id in w.db.networks ==> w.db.networks[id].bridge != AsI32(w.db.nextBridge)
    ensures var b, id := AsI32(w.db.nextBridge), w.db.issued;
            Run(w, Twice(pid)) == World(
              w.db.(networks := w.db.networks[id := Network(owner, b, cidr, Creating)], nextBridge := w.db.nextBridge + 1,
                    issued := id + 1),
              w.host, w.procs[pid := Create(MakeBridge(id, b))], w.nextPid)
  {
    hide Run, AsI32;
    var b, id := AsI32(w.db.nextBridge), w.db.issued;
    var db1 := w.db.(nextBridge := w.db.nextBridge + 1);
    var db2 := db1.(networks := w.db.networks[id := Network(owner, b, cidr, Creating)], issued := id + 1);
    var w1 := World(db1, w.host, w.procs[pid := Create(InsertRow(owner, cidr, b))], w.nextPid);
    Goes(w, pid, db1, w.host, Create(InsertRow(owner, cidr, b)));
    Goes(w1, pid, db2, w.host, Create(MakeBridge(id, b)));
    RunConcat(w, [Act(pid, Done)], [Act(pid, Done)]);
    assert w1.procs[pid := Create(MakeBridge(id, b))] == w.procs[pid := Create(MakeBridge(id, b))];
  }

  /** From any state: the request makes its bridge and activates its network. */
  lemma ProvisionRuns(w: World, pid: nat, id: Id, bridge: int)
    requires pid in w.procs && w.procs[pid] == Create(MakeBridge(id, bridge)) && id in w.db.networks
    ensures Run(w, Twice(pid)) == World(
              w.db.(networks := w.db.networks[id := w.db.networks[id].(state := NetworkState.Active)]),
              w.host.(bridges := w.host.bridges + {bridge}), w.procs - {pid}, w.nextPid)
  {
    hide Run;
    var host := w.host.(bridges := w.host.bridges + {bridge});
    var w1 := World(w.db, host, w.procs[pid := Create(Activate(id))], w.nextPid);
    Goes(w, pid, w.db, host, Create(Activate(id)));
    Ends(w1, pid, w.db.(networks := w.db.networks[id := w.db.networks[id].(state := NetworkState.Active)]), host);
    RunConcat(w, [Act(pid, Done)], [Act(pid, Done)]);
    assert w1.procs - {pid} == w.procs - {pid};
  }

  function Finish(pid: nat): seq<Event> { Twice(pid) + Twice(pid) }

  /** From any state: the request at its draw stores an active network and its bridge. */
  lemma StoreRuns(w: World, pid: nat, owner: Id, cidr: Net)
    requires pid in w.procs && w.procs[pid] == Create(DrawBridge(owner, cidr))
    requires forall id :: id in w.db.networks ==> w.db.networks[id].bridge != AsI32(w.db.nextBridge)
    ensures var b, id := AsI32(w.db.nextBridge), w.db.issued;
            Run(w, Finish(pid)) == World(
              w.db.(networks := w.db.networks[id := Network(owner, b, cidr, NetworkState.Active)],
                    nextBridge := w.db.nextBridge + 1, issued := id + 1),
              w.host.(bridges := w.host.bridges + {b}), w.procs - {pid}, w.nextPid)
  {
    hide Run, AsI32, Twice;
    var b, id := AsI32(w.db.nextBridge), w.db.issued;
    InsertRuns(w, pid, owner, cidr);
    var w1 := Run(w, Twice(pid));
    ProvisionRuns(w1, pid, id, b);
    RunConcat(w, Twice(pid), Twice(pid));
    assert w1.db.networks[id := w1.db.networks[id].(state := NetworkState.Active)]
           == w.db.networks[id := Network(owner, b, cidr, NetworkState.Active)];
    assert w1.procs - {pid} == w.procs - {pid};
  }

  /** From any state with room: a create request draws a number and fails. */
  lemma DrawFails(w: World, req: Request, owner: Id, cidr: Net)
    requires Start(req) == Continue(Create(CountNode(owner, cidr))) && w.nextPid !in w.procs
    requires |Live(w.db.networks)| < MAX_NETWORKS_PER_NODE && |LiveOf(w.db.networks, owner)| < MAX_NETWORKS_PER_USER
    requires !OverlapsOwn(w.db.networks, owner, cidr)
    ensures Run(w, EnterWith(req, w.nextPid) + [Act(w.nextPid, Fail(true))])
            == w.(db := w.db.(nextBridge := w.db.nextBridge + 1), nextPid := w.nextPid + 1)
  {
    hide Run, Start, EnterWith, OverlapsOwn, Live, LiveOf;
    CheckRuns(w, req, owner, cidr);
    RunSnoc(w, EnterWith(req, w.nextPid), Act(w.nextPid, Fail(true)));
    assert Joined(w, Create(DrawBridge(owner, cidr))).procs - {w.nextPid} == w.procs;
  }

  // --- Deleting -----------------------------------------------------------------------------------

  function DeleteEnter(actor: Actor, id: Id, pid: nat): seq<Event> {
    [Begin(DeleteNetwork(actor, id)), Act(pid, Done), Act(pid, Done)]
  }

  /** From any state: a delete of an empty network passes its checks. */
  lemma DeleteChecks(w: World, actor: Actor, id: Id)
    requires id in w.db.networks && Owns(actor, w.db.networks[id]) && MembersOf(w.db.members, id) == {}
    ensures Run(w, DeleteEnter(actor, id, w.nextPid)) == Joined(w, Delete(MarkDeleting(id, w.db.networks[id].bridge)))
  {
    hide Run, Apply;
    var b, a := w.db.networks[id].bridge, Act(w.nextPid, Done);
    RunNone(w);
    OneBegin(w, [], DeleteNetwork(actor, id), Delete(DeleteProc.Load(actor, id)));
    var e1 := [] + [Begin(DeleteNetwork(actor, id))];
    var e2 := e1 + [a];
    assert DeleteEnter(actor, id, w.nextPid) == e2 + [a];
    hide Joined, DeleteEnter;
    Reads(w, e1, Delete(DeleteProc.Load(actor, id)), Delete(CheckEmpty(id, b)));
    Reads(w, e2, Delete(CheckEmpty(id, b)), Delete(MarkDeleting(id, b)));
  }

  lemma MarkRuns(w: World, pid: nat, id: Id, bridge: int)
    requires pid in w.procs && w.procs[pid] == Delete(MarkDeleting(id, bridge)) && id in w.db.networks
    ensures Run(w, [Act(pid, Done)]) == World(
              w.db.(networks := w.db.networks[id := w.db.networks[id].(state := NetworkState.Deleting)]), w.host,
              w.procs[pid := Delete(RemoveBridge(id, bridge))], w.nextPid)
  {
    hide Run;
    Goes(w, pid, w.db.(networks := w.db.networks[id := w.db.networks[id].(state := NetworkState.Deleting)]), w.host,
         Delete(RemoveBridge(id, bridge)));
  }

  lemma UnbridgeRuns(w: World, pid: nat, id: Id, bridge: int)
    requires pid in w.procs && w.procs[pid] == Delete(RemoveBridge(id, bridge))
    ensures Run(w, [Act(pid, Done)]) == World(w.db, w.host.(bridges := w.host.bridges - {bridge}),
                                              w.procs[pid := Delete(DropRow(id))], w.nextPid)
  {
    hide Run;
    Goes(w, pid, w.db, w.host.(bridges := w.host.bridges - {bridge}), Delete(DropRow(id)));
  }

  lemma DropRuns(w: World, pid: nat, id: Id)
    requires pid in w.procs && w.procs[pid] == Delete(DropRow(id)) && MembersOf(w.db.members, id) == {}
    ensures Run(w, [Act(pid, Done)]) == World(w.db.(networks := w.db.networks - {id}), w.host, w.procs - {pid}, w.nextPid)
  {
    hide Run;
    Ends(w, pid, w.db.(networks := w.db.networks - {id}), w.host);
  }

  // --- Adding --------------------------------------------------------------------------------------

  function AddEnter(actor: Actor, network: Id, container: Id, pid: nat): seq<Event> {
    [Begin(AddMember(actor, network, container, true)), Act(pid, Done), Act(pid, Done), Act(pid, Done), Act(pid, Done), Act(pid, Done)]
  }

  /** An add of a container to an active network finds this address and slot free. */
  ghost predicate MayAdd(db: Db, actor: Actor, net: Loaded, ctid: int, ip: Address, slot: nat) {
    && net.network in db.networks && Owns(actor, db.networks[net.network])
    && db.networks[net.network].state == NetworkState.Active
    && db.networks[net.network].cidr == net.cidr && db.networks[net.network].bridge == net.bridge
    && net.container in db.containers && db.containers[net.container] == ctid
    && (forall id :: id in MembersOf(db.members, net.network) ==> db.members[id].container != net.container)
    && LowestFreeAddress(net.cidr, UsedIn(db.members, net.network)) == Some(ip)
    && LowestFree(1, MAX_SLOT, UsedSlots(db.members, net.container)) == Some(slot)
  }

  lemma AddSteps(db: Db, host: Host, actor: Actor, net: Loaded, ctid: int, ip: Address, slot: nat)
    requires MayAdd(db, actor, net, ctid, ip, slot)
    ensures Step(db, host, Add(LoadNetwork(actor, net.network, net.container, true)), Done)
            == Outcome(db, host, Continue(Add(LoadContainer(net))))
    ensures Step(db, host, Add(LoadContainer(net)), Done) == Outcome(db, host, Continue(Add(CheckNotMember(net, ctid))))
    ensures Step(db, host, Add(CheckNotMember(net, ctid)), Done) == Outcome(db, host, Continue(Add(ReadIps(net, ctid))))
    ensures Step(db, host, Add(ReadIps(net, ctid)), Done) == Outcome(db, host, Continue(Add(ReadSlots(net, ctid, ip))))
    ensures Step(db, host, Add(ReadSlots(net, ctid, ip)), Done)
            == Outcome(db, host, Continue(Add(InsertMembership(net, ctid, ip, slot))))
  {
    hide LowestFreeAddress, UsedIn, UsedSlots, LowestFree, MembersOf;
  }

  /** From any state: such an add passes its checks. */
  lemma AddChecks(w: World, actor: Actor, net: Loaded, ctid: int, ip: Address, slot: nat)
    requires MayAdd(w.db, actor, net, ctid, ip, slot)
    ensures Run(w, AddEnter(actor, net.network, net.container, w.nextPid)) == Joined(w, Add(InsertMembership(net, ctid, ip, slot)))
  {
    hide Run, Apply, Step;
    AddSteps(w.db, w.host, actor, net, ctid, ip, slot);
    hide MayAdd;
    var a := Act(w.nextPid, Done);
    RunNone(w);
    OneBegin(w, [], AddMember(actor, net.network, net.container, true), Add(LoadNetwork(actor, net.network, net.container, true)));
    var e1 := [] + [Begin(AddMember(actor, net.network, net.container, true))];
    var e2 := e1 + [a];
    var e3 := e2 + [a];
    var e4 := e3 + [a];
    var e5 := e4 + [a];
    assert AddEnter(actor, net.network, net.container, w.nextPid) == e5 + [a];
    hide Joined, AddEnter;
    Reads(w, e1, Add(LoadNetwork(actor, net.network, net.container, true)), Add(LoadContainer(net)));
    Reads(w, e2, Add(LoadContainer(net)), Add(CheckNotMember(net, ctid)));
    Reads(w, e3, Add(CheckNotMember(net, ctid)), Add(ReadIps(net, ctid)));
    Reads(w, e4, Add(ReadIps(net, ctid)), Add(ReadSlots(net, ctid, ip)));
    Reads(w, e5, Add(ReadSlots(net, ctid, ip)), Add(InsertMembership(net, ctid, ip, slot)));
  }

  lemma InsertMemberRuns(w: World, pid: nat, net: Loaded, ctid: int, ip: Address, slot: nat)
    requires pid in w.procs && w.procs[pid] == Add(InsertMembership(net, ctid, ip, slot))
    requires InsertMember(w.db, Member(net.network, net.container, PrintAddress(ip), slot, Attaching)).Some?
    ensures Run(w, [Act(pid, Done)]) == World(
              w.db.(members := w.db.members[w.db.issued := Member(net.network, net.container, PrintAddress(ip), slot, Attaching)],
                    issued := w.db.issued + 1),
              w.host, w.procs[pid := Add(Attach(w.db.issued, ctid, slot, net.bridge))], w.nextPid)
  {
    hide Run, PrintAddress, Clash;
    Goes(w, pid, InsertMember(w.db, Member(net.network, net.container, PrintAddress(ip), slot, Attaching)).value, w.host,
         Add(Attach(w.db.issued, ctid, slot, net.bridge)));
  }

  lemma AttachRuns(w: World, pid: nat, member: Id, key: (int, nat), bridge: int)
    requires pid in w.procs && w.procs[pid] == Add(Attach(member, key.0, key.1, bridge))
    ensures Run(w, [Act(pid, Done)]) == World(w.db, w.host.(nics := w.host.nics[key := bridge]),
                                              w.procs[pid := Add(MarkActive(member))], w.nextPid)
  {
    hide Run;
    Goes(w, pid, w.db, w.host.(nics := w.host.nics[key := bridge]), Add(MarkActive(member)));
  }

  lemma JoinRuns(w: World, pid: nat, member: Id)
    requires pid in w.procs && w.procs[pid] == Add(MarkActive(member)) && member in w.db.members
    ensures Run(w, [Act(pid, Done)]) == World(
              w.db.(members := w.db.members[member := w.db.members[member].(state := MemberState.Active)]), w.host,
              w.procs - {pid}, w.nextPid)
  {
    hide Run;
    Ends(w, pid, w.db.(members := w.db.members[member := w.db.members[member].(state := MemberState.Active)]), w.host);
  }

  // --- Removing ------------------------------------------------------------------------------------

  function RemoveEnter(actor: Actor, network: Id, container: Id, pid: nat): seq<Event> {
    [Begin(RemoveMember(actor, network, container, true)), Act(pid, Done), Act(pid, Done), Act(pid, Done)]
  }

  ghost predicate RowIsLike(a: Member, b: Member) { a.network == b.network && a.container == b.container }

  /** The row is the only one of its container in its network, and the container is there. */
  ghost predicate MayRemove(db: Db, actor: Actor, member: Id, ctid: int) {
    && member in db.members
    && db.members[member].network in db.networks && Owns(actor, db.networks[db.members[member].network])
    && db.members[member].container in db.containers && db.containers[db.members[member].container] == ctid
    && (forall id :: id in db.members && RowIsLike(db.members[id], db.members[member]) ==> id == member)
  }

  lemma RemoveSteps(db: Db, host: Host, actor: Actor, member: Id, ctid: int)
    requires MayRemove(db, actor, member, ctid)
    ensures var row := db.members[member];
            && Step(db, host, Remove(LoadFor(actor, row.network, row.container, true)), Done)
               == Outcome(db, host, Continue(Remove(FindMember(row.network, row.container))))
            && Step(db, host, Remove(FindMember(row.network, row.container)), Done)
               == Outcome(db, host, Continue(Remove(FindContainer(member, row))))
            && Step(db, host, Remove(FindContainer(member, row)), Done)
               == Outcome(db, host, Continue(Remove(MarkDetaching(member, row, ctid))))
  {
    hide Pick;
    var row := db.members[member];
    assert RowsOf(db.members, row.network, row.container) == {member};
  }

  /** From any state: a remove of that row passes its reads. */
  lemma RemoveChecks(w: World, actor: Actor, member: Id, ctid: int)
    requires MayRemove(w.db, actor, member, ctid)
    ensures var row := w.db.members[member];
            Run(w, RemoveEnter(actor, row.network, row.container, w.nextPid)) == Joined(w, Remove(MarkDetaching(member, row, ctid)))
  {
    hide Run, Apply, Step;
    RemoveSteps(w.db, w.host, actor, member, ctid);
    var row, a := w.db.members[member], Act(w.nextPid, Done);
    hide MayRemove;
    RunNone(w);
    OneBegin(w, [], RemoveMember(actor, row.network, row.container, true), Remove(LoadFor(actor, row.network, row.container, true)));
    var e1 := [] + [Begin(RemoveMember(actor, row.network, row.container, true))];
    var e2 := e1 + [a];
    var e3 := e2 + [a];
    assert RemoveEnter(actor, row.network, row.container, w.nextPid) == e3 + [a];
    hide Joined, RemoveEnter;
    Reads(w, e1, Remove(LoadFor(actor, row.network, row.container, true)), Remove(FindMember(row.network, row.container)));
    Reads(w, e2, Remove(FindMember(row.network, row.container)), Remove(FindContainer(member, row)));
    Reads(w, e3, Remove(FindContainer(member, row)), Remove(MarkDetaching(member, row, ctid)));
  }

  lemma LeaveRuns(w: World, pid: nat, member: Id, row: Member, ctid: int)
    requires pid in w.procs && w.procs[pid] == Remove(MarkDetaching(member, row, ctid)) && member in w.db.members
    ensures Run(w, [Act(pid, Done)]) == World(
              w.db.(members := w.db.members[member := w.db.members[member].(state := Detaching)]), w.host,
              w.procs[pid := Remove(Detach(member, row, ctid))], w.nextPid)
  {
    hide Run;
    Goes(w, pid, w.db.(members := w.db.members[member := w.db.members[member].(state := Detaching)]), w.host,
         Remove(Detach(member, row, ctid)));
  }

  lemma DetachRuns(w: World, pid: nat, member: Id, row: Member, ctid: int)
    requires pid in w.procs && w.procs[pid] == Remove(Detach(member, row, ctid))
    ensures Run(w, [Act(pid, Done)]) == World(w.db, w.host.(nics := w.host.nics - {(ctid, row.slot)}),
                                              w.procs[pid := Remove(DropMembership(row.network, row.container))], w.nextPid)
  {
    hide Run;
    Goes(w, pid, w.db, w.host.(nics := w.host.nics - {(ctid, row.slot)}), Remove(DropMembership(row.network, row.container)));
  }

  lemma DropMemberRuns(w: World, pid: nat, network: Id, container: Id)
    requires pid in w.procs && w.procs[pid] == Remove(DropMembership(network, container))
    ensures Run(w, [Act(pid, Done)]) == World(DeleteMemberRow(w.db, network, container), w.host, w.procs - {pid}, w.nextPid)
  {
    hide Run, DeleteMemberRow;
    Ends(w, pid, DeleteMemberRow(w.db, network, container), w.host);
  }
}
