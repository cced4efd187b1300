/** From every state in which two requests meet at these awaits, letting both go on breaks the match of tables and host. */
module NetworkMeetings {
  import opened Basics
  import opened Ipv4
  import opened Addressing
  import opened NetworkTables
  import opened NetworkSteps
  import opened NetworkInterleaved
  import opened NetworkScripts
  import opened NetworkConsistency

  // --- A delete and a create of one network -----------------------------------------------------

  ghost predicate AboutToDelete(w: World, q: nat, id: Id, bridge: int) {
    && q in w.procs && w.procs[q] == Delete(MarkDeleting(id, bridge))
    && IsNetwork(w.db.networks, id, bridge) && MembersOf(w.db.members, id) == {}
  }

  /** The delete finishes, and the create then makes its bridge: a bridge without a row. */
  lemma LateBridge(w: World, p: nat, q: nat, id: Id, bridge: int)
    requires TablesOk(w.db) && AboutToDelete(w, q, id, bridge) && p in w.procs && w.procs[p] == Create(MakeBridge(id, bridge))
    ensures var after := Run(w, Go(q) + Go(q) + Go(q) + Go(p));
            && after.db == w.db.(networks := w.db.networks - {id}) && after.host.bridges == w.host.bridges + {bridge}
            && !BridgesHaveRows(after.db.networks, after.host.bridges)
  {
    hide Run, MembersOf, MembersOk, ContainersOk, NoClash, AcceptedCidr;
    MarkRuns(w, q, id, bridge);
    var w1 := Run(w, Go(q));
    UnbridgeRuns(w1, q, id, bridge);
    RunConcat(w, Go(q), Go(q));
    var w2 := Run(w1, Go(q));
    DropRuns(w2, q, id);
    RunConcat(w, Go(q) + Go(q), Go(q));
    var w3 := Run(w2, Go(q));
    Goes(w3, p, w3.db, w3.host.(bridges := w3.host.bridges + {bridge}), Create(Activate(id)));
    RunConcat(w, Go(q) + Go(q) + Go(q), Go(p));
    assert !BridgeHasRow(w3.db.networks, bridge);
    assert w3.db.networks == w.db.networks - {id};
    assert w3.host.bridges + {bridge} == w.host.bridges + {bridge};
  }

  /** The delete removes the bridge, and the create then activates its network: an active network without a bridge. */
  lemma LateActivation(w: World, p: nat, q: nat, id: Id, bridge: int)
    requires AboutToDelete(w, q, id, bridge) && p in w.procs && w.procs[p] == Create(Activate(id))
    ensures var after := Run(w, Go(q) + Go(q) + Go(p));
            && id in after.db.networks && after.db.networks[id].state == NetworkState.Active
            && after.db.networks[id].bridge !in after.host.bridges
            && !ActiveHaveBridges(after.db.networks, after.host.bridges)
  {
    hide Run, MembersOf;
    MarkRuns(w, q, id, bridge);
    var w1 := Run(w, Go(q));
    UnbridgeRuns(w1, q, id, bridge);
    RunConcat(w, Go(q), Go(q));
    var w2 := Run(w1, Go(q));
    Ends(w2, p, SetNetworkState(w2.db, id, NetworkState.Active), w2.host);
    RunConcat(w, Go(q) + Go(q), Go(p));
  }

  // --- A delete and an add on one network ----------------------------------------------------------

  /** What passed the checks of an add can be inserted. */
  lemma MayInsert(db: Db, actor: Actor, net: Loaded, ctid: int, ip: Address, slot: nat)
    requires MayAdd(db, actor, net, ctid, ip, slot)
    ensures InsertMember(db, Member(net.network, net.container, PrintAddress(ip), slot, Attaching)).Some?
  {
    hide PrintAddress, ParseAddress, LowestFree, LowestFreeAddress;
    var m := Member(net.network, net.container, PrintAddress(ip), slot, Attaching);
    FoundFree(net.cidr, UsedIn(db.members, net.network), ip, UsedSlots(db.members, net.container), slot);
    AddressRoundTrip(ip);
    forall id | id in db.members
      ensures !Clash(db.members[id], m)
    {
      var other := db.members[id];
      if other.network == m.network {
        assert id in MembersOf(db.members, net.network) && other.ip in UsedIps(db.members, net.network);
      }
      if other.container == m.container { assert other.slot in UsedSlots(db.members, net.container); }
    }
  }

  lemma FoundFree(cidr: Net, used: set<nat>, ip: Address, slots: set<nat>, slot: nat)
    requires LowestFreeAddress(cidr, used) == Some(ip) && LowestFree(1, MAX_SLOT, slots) == Some(slot)
    ensures ip !in used && slot !in slots && 1 <= slot <= MAX_SLOT
  {
  }

  /** The membership is stored and active, and its NIC plugged into a bridge that does not exist. */
  ghost predicate UnbridgedMember(w: World, after: World, net: Loaded, ctid: int, ip: Address, slot: nat) {
    && after.db.members
       == w.db.members[w.db.issued := Member(net.network, net.container, PrintAddress(ip), slot, MemberState.Active)]
    && after.host == Host(w.host.bridges - {net.bridge}, w.host.nics[(ctid, slot) := net.bridge])
  }

  /** The add finishes, and the delete then removes the bridge: an active membership whose NIC has no bridge. */
  lemma LateUnbridge(w: World, p: nat, q: nat, net: Loaded, ctid: int, ip: Address, slot: nat)
    requires p in w.procs && w.procs[p] == Add(InsertMembership(net, ctid, ip, slot))
    requires q in w.procs && w.procs[q] == Delete(MarkDeleting(net.network, net.bridge))
    requires InsertMember(w.db, Member(net.network, net.container, PrintAddress(ip), slot, Attaching)).Some?
    ensures var after := Run(w, Go(p) + Go(p) + Go(p) + Go(q) + Go(q));
            && UnbridgedMember(w, after, net, ctid, ip, slot) && !MembersAreLive(after.db.networks, after.db.members)
  {
    hide Run, PrintAddress;
    InsertMemberRuns(w, p, net, ctid, ip, slot);
    var w1 := Run(w, Go(p));
    AttachRuns(w1, p, w.db.issued, (ctid, slot), net.bridge);
    RunConcat(w, Go(p), Go(p));
    var w2 := Run(w1, Go(p));
    JoinRuns(w2, p, w.db.issued);
    RunConcat(w, Go(p) + Go(p), Go(p));
    var w3 := Run(w2, Go(p));
    MarkRuns(w3, q, net.network, net.bridge);
    RunConcat(w, Go(p) + Go(p) + Go(p), Go(q));
    var w4 := Run(w3, Go(q));
    UnbridgeRuns(w4, q, net.network, net.bridge);
    RunConcat(w, Go(p) + Go(p) + Go(p) + Go(q), Go(q));
    assert w4.db.members[w.db.issued].network == net.network;
  }

  /** An add and a delete of one network begin together: the add's awaits end between the delete's checks and its marking. */
  function AddNextToDelete(adder: Actor, deleter: Actor, net: Loaded, pid: nat): seq<Event> {
    AddEnter(adder, net.network, net.container, pid) + DeleteEnter(deleter, net.network, pid + 1)
    + (Go(pid) + Go(pid) + Go(pid) + Go(pid + 1) + Go(pid + 1))
  }

  /** From every state with an empty active network, and a free address and slot for a container, whatever else is in flight. */
  lemma AddMeetsDelete(w: World, adder: Actor, deleter: Actor, net: Loaded, ctid: int, ip: Address, slot: nat)
    requires MayAdd(w.db, adder, net, ctid, ip, slot) && Owns(deleter, w.db.networks[net.network])
    requires MembersOf(w.db.members, net.network) == {}
    ensures var after := Run(w, AddNextToDelete(adder, deleter, net, w.nextPid));
            && UnbridgedMember(w, after, net, ctid, ip, slot) && !MembersAreLive(after.db.networks, after.db.members)
  {
    hide Run, PrintAddress, LowestFree, LowestFreeAddress, UsedIn, UsedSlots, MembersOf, AddEnter, DeleteEnter, InsertMember;
    MayInsert(w.db, adder, net, ctid, ip, slot);
    AddChecks(w, adder, net, ctid, ip, slot);
    var pid, w1 := w.nextPid, Joined(w, Add(InsertMembership(net, ctid, ip, slot)));
    DeleteChecks(w1, deleter, net.network);
    var enter := AddEnter(adder, net.network, net.container, pid);
    RunConcat(w, enter, DeleteEnter(deleter, net.network, pid + 1));
    var w2 := Joined(w1, Delete(MarkDeleting(net.network, net.bridge)));
    LateUnbridge(w2, pid, pid + 1, net, ctid, ip, slot);
    RunConcat(w, enter + DeleteEnter(deleter, net.network, pid + 1), Go(pid) + Go(pid) + Go(pid) + Go(pid + 1) + Go(pid + 1));
  }

  // --- A remove and an add of one membership ----------------------------------------------------------

  ghost predicate AboutToRemove(w: World, q: nat, member: Id, row: Member, ctid: int) {
    && q in w.procs && w.procs[q] == Remove(MarkDetaching(member, row, ctid))
    && RowIs(w.db.members, member, row) && Numbered(w.db.containers, row.container, ctid)
  }

  /** The remove finishes, and the add then plugs in its NIC: an occupied slot without a row. */
  lemma LateAttach(w: World, p: nat, q: nat, member: Id, row: Member, ctid: int, bridge: int)
    requires TablesOk(w.db) && AboutToRemove(w, q, member, row, ctid)
    requires p in w.procs && w.procs[p] == Add(Attach(member, ctid, row.slot, bridge))
    ensures var after := Run(w, Go(q) + Go(q) + Go(q) + Go(p));
            && after.db == DeleteMemberRow(w.db, row.network, row.container) && member !in after.db.members
            && after.host.nics == w.host.nics[(ctid, row.slot) := bridge] && !NicsHaveRows(after.db, after.host.nics)
  {
    hide Run, NetworksOk, MembersOk, DeleteMemberRow;
    LeaveRuns(w, q, member, row, ctid);
    var w1 := Run(w, Go(q));
    DetachRuns(w1, q, member, row, ctid);
    RunConcat(w, Go(q), Go(q));
    var w2 := Run(w1, Go(q));
    DropMemberRuns(w2, q, row.network, row.container);
    RunConcat(w, Go(q) + Go(q), Go(q));
    var w3 := Run(w2, Go(q));
    AttachRuns(w3, p, member, (ctid, row.slot), bridge);
    RunConcat(w, Go(q) + Go(q) + Go(q), Go(p));
    SlotUnclaimed(w.db, w2.db, member, row, ctid, bridge);
    assert w3.host.nics[(ctid, row.slot) := bridge] == w.host.nics[(ctid, row.slot) := bridge];
    NotMatched(w3.db, w3.host.nics[(ctid, row.slot) := bridge], (ctid, row.slot));
  }

  lemma NotMatched(db: Db, nics: Nics, key: (int, nat))
    requires key in nics && !HasRow(db, key, nics[key])
    ensures !NicsHaveRows(db, nics)
  {
  }

  lemma SlotUnclaimed(db: Db, marked: Db, member: Id, row: Member, ctid: int, bridge: int)
    requires TablesOk(db) && RowIs(db.members, member, row) && Numbered(db.containers, row.container, ctid)
    requires marked == db.(members := db.members[member := db.members[member].(state := Detaching)])
    ensures var after := DeleteMemberRow(marked, row.network, row.container);
            after == DeleteMemberRow(db, row.network, row.container) && member !in after.members && !HasRow(after, (ctid, row.slot), bridge)
  {
    hide NetworksOk, MembersOk;
    assert DeleteMemberRow(marked, row.network, row.container).members == DeleteMemberRow(db, row.network, row.container).members;
    assert forall other :: other in db.members && other != member ==> !Clash(db.members[other], db.members[member]);
  }

  /** The remove unplugs the NIC, and the add then activates its row: an active membership without a NIC. */
  lemma LateJoin(w: World, p: nat, q: nat, member: Id, row: Member, ctid: int)
    requires AboutToRemove(w, q, member, row, ctid) && p in w.procs && w.procs[p] == Add(MarkActive(member))
    ensures var after := Run(w, Go(q) + Go(q) + Go(p));
            && member in after.db.members && after.db.members[member].state == MemberState.Active
            && !ActiveHaveNics(after.db.members, after.db.containers, after.host.nics)
  {
    hide Run;
    LeaveRuns(w, q, member, row, ctid);
    var w1 := Run(w, Go(q));
    DetachRuns(w1, q, member, row, ctid);
    RunConcat(w, Go(q), Go(q));
    var w2 := Run(w1, Go(q));
    JoinRuns(w2, p, member);
    RunConcat(w, Go(q) + Go(q), Go(p));
    var after := Run(w2, Go(p));
    assert SlotKey(after.db.containers, after.db.members[member]) == (ctid, row.slot);
  }

  // --- Two removes of one membership ---------------------------------------------------------------------

  /** A remove whose row is gone unplugs the NIC of whatever active row has taken the slot. */
  lemma LateDetach(w: World, q: nat, member: Id, row: Member, ctid: int, other: Id)
    requires q in w.procs && w.procs[q] == Remove(Detach(member, row, ctid)) && Numbered(w.db.containers, row.container, ctid)
    requires member !in w.db.members && other in w.db.members && w.db.members[other].state == MemberState.Active
    requires w.db.members[other].container == row.container && w.db.members[other].slot == row.slot
    ensures var after := Run(w, Go(q));
            && after.db == w.db && after.host == w.host.(nics := w.host.nics - {(ctid, row.slot)})
            && !ActiveHaveNics(after.db.members, after.db.containers, after.host.nics)
  {
    hide Run;
    DetachRuns(w, q, member, row, ctid);
    assert SlotKey(w.db.containers, w.db.members[other]) == (ctid, row.slot);
  }

  /** Both removes have read the row; one finishes, the container joins another network in the same slot, the other goes on. */
  function RemoveNextToRemove(p: nat, q: nat, actor: Actor, net: Loaded, pid: nat): seq<Event> {
    Go(p) + Go(p) + AddEnter(actor, net.network, net.container, pid) + Go(pid) + Go(pid) + Go(pid) + Go(q)
  }

  lemma RemoveMeetsRemove(w: World, p: nat, q: nat, member: Id, row: Member, ctid: int, actor: Actor, net: Loaded, ip: Address)
    requires p in w.procs && q in w.procs && p != q && w.procs[p] == w.procs[q] == Remove(Detach(member, row, ctid))
    requires RowIs(w.db.members, member, row) && Numbered(w.db.containers, row.container, ctid) && net.container == row.container
    requires MayAdd(DeleteMemberRow(w.db, row.network, row.container), actor, net, ctid, ip, row.slot)
    requires TablesOk(w.db) && w.nextPid !in w.procs
    ensures var after := Run(w, RemoveNextToRemove(p, q, actor, net, w.nextPid)); var id := w.db.issued;
            && after.db.members == DeleteMemberRow(w.db, row.network, row.container).members[
                 id := Member(net.network, net.container, PrintAddress(ip), row.slot, MemberState.Active)]
            && after.host.nics == w.host.nics - {(ctid, row.slot)} && !ActiveHaveNics(after.db.members, after.db.containers, after.host.nics)
  {
    hide Run, PrintAddress, LowestFree, LowestFreeAddress, UsedIn, UsedSlots, MembersOf, AddEnter, InsertMember, MayAdd, TablesOk;
    IdsIssued(w.db);
    var pid, slot := w.nextPid, row.slot;
    DetachRuns(w, p, member, row, ctid);
    var w1 := Run(w, Go(p));
    DropMemberRuns(w1, p, row.network, row.container);
    RunConcat(w, Go(p), Go(p));
    var w2 := Run(w1, Go(p));
    MayInsert(w2.db, actor, net, ctid, ip, slot);
    AddChecks(w2, actor, net, ctid, ip, slot);
    var enter := AddEnter(actor, net.network, net.container, pid);
    RunConcat(w, Go(p) + Go(p), enter);
    var w3 := Joined(w2, Add(InsertMembership(net, ctid, ip, slot)));
    var e3 := Go(p) + Go(p) + enter;
    InsertMemberRuns(w3, pid, net, ctid, ip, slot);
    RunConcat(w, e3, Go(pid));
    var w4 := Run(w3, Go(pid));
    AttachRuns(w4, pid, w.db.issued, (ctid, slot), net.bridge);
    RunConcat(w, e3 + Go(pid), Go(pid));
    var w5 := Run(w4, Go(pid));
    JoinRuns(w5, pid, w.db.issued);
    RunConcat(w, e3 + Go(pid) + Go(pid), Go(pid));
    var w6 := Run(w5, Go(pid));
    RunConcat(w, e3 + Go(pid) + Go(pid) + Go(pid), Go(q));
    LateDetach(w6, q, member, row, ctid, w.db.issued);
    assert w6.host.nics - {(ctid, slot)} == w.host.nics - {(ctid, slot)};
  }

  // --- Two deletes of one network ----------------------------------------------------------------------------

  /** A delete whose row is gone removes the bridge of whatever active network has taken the number. */
  lemma LateDelete(w: World, q: nat, id: Id, bridge: int, other: Id)
    requires q in w.procs && w.procs[q] == Delete(RemoveBridge(id, bridge)) && id !in w.db.networks
    requires IsNetwork(w.db.networks, other, bridge) && w.db.networks[other].state == NetworkState.Active
    ensures var after := Run(w, Go(q));
            && after.db == w.db && after.host.bridges == w.host.bridges - {bridge} && !ActiveHaveBridges(after.db.networks, after.host.bridges)
  {
    hide Run;
    UnbridgeRuns(w, q, id, bridge);
  }
}
