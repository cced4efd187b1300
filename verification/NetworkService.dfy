/** The repository, the Proxmox client and the service as objects that update their state await by await. */
module NetworkService {
  import opened Basics
  import opened Ipv4
  import opened Addressing
  import opened NetworkTables
  import opened NetworkSteps
  import opened NetworkInterleaved
  import opened NetworkConsistency
  import opened NetworkRequests

  /** Tables and sequence; each method is one statement, answered by `reply`. */
  class NetworkRepo {
    var networks: map<Id, Network>
    var members: map<Id, Member>
    var containers: map<Id, int>
    var nextBridge: nat
    var issued: nat

    function Rows(): Db reads this { Db(networks, members, containers, nextBridge, issued) }

    constructor ()
      ensures Rows() == INIT.db
    {
      networks, members, containers, nextBridge, issued := map[], map[], map[], FIRST_BRIDGE, 0;
    }

    method NextBridgeId(reply: Reply) returns (r: Option<int>)
      modifies this`nextBridge
      ensures nextBridge == old(nextBridge) + if reply == Fail(false) then 0 else 1
      ensures r == if reply.Done? then Some(AsI32(old(nextBridge))) else None
    {
      if reply != Fail(false) { nextBridge := nextBridge + 1; }
      r := if reply.Done? then Some(AsI32(nextBridge - 1)) else None;
    }

    /** INSERT; the unique key on the bridge number rejects a duplicate. */
    method Create(n: Network, reply: Reply) returns (id: Option<Id>)
      modifies this`networks, this`issued
      ensures reply == Fail(false) || InsertNetwork(old(Rows()), n).None? ==> Rows() == old(Rows()) && id == None
      ensures reply != Fail(false) && InsertNetwork(old(Rows()), n).Some? ==>
                Rows() == InsertNetwork(old(Rows()), n).value && id == if reply.Done? then Some(old(issued)) else None
    {
      if reply == Fail(false) || exists k :: k in networks && networks[k].bridge == n.bridge { return None; }
      networks := networks[issued := n];
      issued := issued + 1;
      id := if reply.Done? then Some(issued - 1) else None;
    }

    method UpdateState(id: Id, state: NetworkState, reply: Reply) returns (ok: bool)
      modifies this`networks
      ensures Rows() == if reply == Fail(false) then old(Rows()) else SetNetworkState(old(Rows()), id, state)
      ensures ok == reply.Done?
    {
      if reply != Fail(false) && id in networks { networks := networks[id := networks[id].(state := state)]; }
      ok := reply.Done?;
    }

    /** DELETE; the foreign key of the memberships rejects it while any refers to the row. */
    method Delete(id: Id, reply: Reply) returns (ok: bool)
      modifies this`networks
      ensures reply == Fail(false) || DeleteNetworkRow(old(Rows()), id).None? ==> Rows() == old(Rows()) && !ok
      ensures reply != Fail(false) && DeleteNetworkRow(old(Rows()), id).Some? ==>
                Rows() == DeleteNetworkRow(old(Rows()), id).value && ok == reply.Done?
    {
      if reply == Fail(false) || (id in networks && MembersOf(members, id) != {}) { return false; }
      networks := networks - {id};
      ok := reply.Done?;
    }

    /** Blocks of a user's networks in any state, in some order. */
    method ListForUser(owner: Id) returns (blocks: seq<Net>)
      ensures forall n :: n in blocks <==> n in OwnedBlocks(networks, owner)
    {
      var left := OwnedBy(networks, owner);
      blocks := [];
      while left != {}
        invariant left <= OwnedBy(networks, owner)
        invariant forall n :: n in blocks ==> n in OwnedBlocks(networks, owner)
        invariant forall id :: id in OwnedBy(networks, owner) ==> id in left || networks[id].cidr in blocks
        decreases left
      {
        var id :| id in left;
        left := left - {id};
        blocks := blocks + [networks[id].cidr];
      }
    }

    /** Addresses stored for a network, as texts in some order. */
    method ListUsedIps(network: Id) returns (ips: seq<string>)
      ensures forall ip :: ip in ips <==> ip in UsedIps(members, network)
    {
      var left := MembersOf(members, network);
      ips := [];
      while left != {}
        invariant left <= MembersOf(members, network)
        invariant forall ip :: ip in ips ==> ip in UsedIps(members, network)
        invariant forall id :: id in MembersOf(members, network) ==> id in left || members[id].ip in ips
        decreases left
      {
        var id :| id in left;
        left := left - {id};
        ips := ips + [members[id].ip];
      }
    }

    /** INSERT with the foreign keys, the slot check and the three unique keys. */
    method InsertRow(m: Member, reply: Reply) returns (id: Option<Id>)
      modifies this`members, this`issued
      ensures reply == Fail(false) || InsertMember(old(Rows()), m).None? ==> Rows() == old(Rows()) && id == None
      ensures reply != Fail(false) && InsertMember(old(Rows()), m).Some? ==>
                Rows() == InsertMember(old(Rows()), m).value && id == if reply.Done? then Some(old(issued)) else None
    {
      if reply == Fail(false) || InsertMember(Rows(), m).None? { return None; }
      members := members[issued := m];
      issued := issued + 1;
      id := if reply.Done? then Some(issued - 1) else None;
    }

    method UpdateMemberState(id: Id, state: MemberState, reply: Reply) returns (ok: bool)
      modifies this`members
      ensures Rows() == if reply == Fail(false) then old(Rows()) else SetMemberState(old(Rows()), id, state)
      ensures ok == reply.Done?
    {
      if reply != Fail(false) && id in members { members := members[id := members[id].(state := state)]; }
      ok := reply.Done?;
    }

    method DeleteMember(network: Id, container: Id, reply: Reply) returns (ok: bool)
      modifies this`members
      ensures Rows() == if reply == Fail(false) then old(Rows()) else DeleteMemberRow(old(Rows()), network, container)
      ensures ok == reply.Done?
    {
      if reply != Fail(false) { members := DeleteMemberRow(Rows(), network, container).members; }
      ok := reply.Done?;
    }
  }

  /** The host; a failing call may or may not have taken effect. */
  class Proxmox {
    var bridges: set<int>
    var nics: map<(int, nat), int>

    function State(): Host reads this { Host(bridges, nics) }

    constructor ()
      ensures State() == INIT.host
    {
      bridges, nics := {}, map[];
    }

    method CreateBridge(bridge: int, reply: Reply) returns (ok: bool)
      modifies this`bridges
      ensures bridges == if reply == Fail(false) then old(bridges) else old(bridges) + {bridge}
      ensures ok == reply.Done?
    {
      if reply != Fail(false) { bridges := bridges + {bridge}; }
      ok := reply.Done?;
    }

    method DeleteBridge(bridge: int, reply: Reply) returns (ok: bool)
      modifies this`bridges
      ensures bridges == if reply == Fail(false) then old(bridges) else old(bridges) - {bridge}
      ensures ok == reply.Done?
    {
      if reply != Fail(false) { bridges := bridges - {bridge}; }
      ok := reply.Done?;
    }

    method AttachContainerNic(ctid: int, slot: nat, bridge: int, reply: Reply) returns (ok: bool)
      modifies this`nics
      ensures nics == if reply == Fail(false) then old(nics) else old(nics)[(ctid, slot) := bridge]
      ensures ok == reply.Done?
    {
      if reply != Fail(false) { nics := nics[(ctid, slot) := bridge]; }
      ok := reply.Done?;
    }

    method DetachContainerNic(ctid: int, slot: nat, reply: Reply) returns (ok: bool)
      modifies this`nics
      ensures nics == if reply == Fail(false) then old(nics) else old(nics) - {(ctid, slot)}
      ensures ok == reply.Done?
    {
      if reply != Fail(false) { nics := nics - {(ctid, slot)}; }
      ok := reply.Done?;
    }
  }

  class NetworkManager {
    const repo: NetworkRepo
    const proxmox: Proxmox

    constructor (repo: NetworkRepo, proxmox: Proxmox)
      ensures this.repo == repo && this.proxmox == proxmox
    {
      this.repo, this.proxmox := repo, proxmox;
    }

    ghost predicate Valid() reads repo { TablesOk(repo.Rows()) }

    /** The request performed from the old state ends in the current one with this answer. */
    twostate predicate Performed(req: Request, replies: nat -> Reply, answer: Answer)
      reads repo, proxmox
    {
      Final(repo.Rows(), proxmox.State(), answer) == Perform(old(repo.Rows()), old(proxmox.State()), req, replies)
    }

    /** The rest of a request from await k of the old state ends in the current one with this answer. */
    twostate predicate Finished(p: Proc, replies: nat -> Reply, k: nat, answer: Answer)
      reads repo, proxmox
    {
      Final(repo.Rows(), proxmox.State(), answer) == Finish(old(repo.Rows()), old(proxmox.State()), Continue(p), replies, k)
    }

    method CreateNetwork(actor: Actor, nameOk: bool, cidr: Option<Net>, replies: nat -> Reply) returns (answer: Answer)
      requires Valid()
      modifies repo, proxmox
      ensures Valid() && Performed(NetworkSteps.CreateNetwork(actor, nameOk, cidr), replies, answer)
      ensures old(Consistent(repo.Rows(), proxmox.State())) ==> Consistent(repo.Rows(), proxmox.State())
    {
      hide ValidateCidr, Consistent, Finish, OverlapsOwn, TablesOk, InsertNetwork, SetNetworkState, AsI32, Live;
      hide LiveOf, Overlap, OwnedBlocks, AcceptedCidr, InsideOnePrivateRange;
      ghost var db, host := repo.Rows(), proxmox.State();
      ghost var req := NetworkSteps.CreateNetwork(actor, nameOk, cidr);
      PerformKeepsTables(db, host, req, replies);
      if Consistent(db, host) { PerformKeepsConsistent(db, host, req, replies); }
      Immediately(db, host, req, replies);
      if !nameOk { return Validation; }
      var checked := ValidateCidr(cidr);
      assert checked.Ok? ==> cidr == Some(checked.value) by { ValidateCidrMeaning(cidr); }
      if checked.Err? { return Validation; }
      var block, owner := checked.value, actor.user;

      Advance(db, host, Create(CountNode(owner, block)), replies, 0);
      if replies(0).Fail? { return Internal; }
      if |Live(repo.networks)| >= MAX_NETWORKS_PER_NODE { return NodeLimit; }

      Advance(db, host, Create(CountUser(owner, block)), replies, 1);
      if replies(1).Fail? { return Internal; }
      if |LiveOf(repo.networks, owner)| >= MAX_NETWORKS_PER_USER { return UserLimit; }

      Advance(db, host, Create(ListOwn(owner, block)), replies, 2);
      if replies(2).Fail? { return Internal; }
      var free := NoOverlapWithOwn(owner, block);
      if !free { return Overlaps; }

      answer := Provision(owner, block, replies);
    }

    /** From drawing the bridge number on: row first, then the bridge, then the state. */
    method Provision(owner: Id, block: Net, replies: nat -> Reply) returns (answer: Answer)
      modifies repo, proxmox
      ensures Finished(Create(DrawBridge(owner, block)), replies, 3, answer)
    {
      hide Finish, InsertNetwork, SetNetworkState, AsI32, Live, LiveOf, OverlapsOwn;
      ghost var db, host := repo.Rows(), proxmox.State();
      Advance(db, host, Create(DrawBridge(owner, block)), replies, 3);
      var bridge := repo.NextBridgeId(replies(3));
      if bridge.None? { return Internal; }

      Advance(repo.Rows(), host, Create(NetworkSteps.InsertRow(owner, block, bridge.value)), replies, 4);
      var id := repo.Create(Network(owner, bridge.value, block, Creating), replies(4));
      if id.None? { return Internal; }

      Advance(repo.Rows(), host, Create(MakeBridge(id.value, bridge.value)), replies, 5);
      var made := proxmox.CreateBridge(bridge.value, replies(5));
      if !made { return ProxmoxError; }

      Advance(repo.Rows(), proxmox.State(), Create(Activate(id.value)), replies, 6);
      var activated := repo.UpdateState(id.value, NetworkState.Active, replies(6));
      return if activated then Success else Internal;
    }

    method NoOverlapWithOwn(owner: Id, block: Net) returns (free: bool)
      ensures free <==> !OverlapsOwn(repo.networks, owner, block)
    {
      var existing := repo.ListForUser(owner);
      free := CheckNoOverlap(block, existing);
      CheckMeansOverlapsOwn(repo.networks, owner, block, existing);
    }

    lemma Immediately(db: Db, host: Host, req: Request, replies: nat -> Reply)
      ensures Start(req).Return? ==> Perform(db, host, req, replies) == Final(db, host, Start(req).answer)
    {
    }

    lemma CheckMeansOverlapsOwn(networks: Networks, owner: Id, block: Net, existing: seq<Net>)
      requires forall n :: n in existing <==> n in OwnedBlocks(networks, owner)
      ensures OverlapsOwn(networks, owner, block) <==> !forall i :: 0 <= i < |existing| ==> !Overlap(block, existing[i])
    {
      forall id | id in OwnedBy(networks, owner)
        ensures block.Contains(networks[id].cidr.Network()) || networks[id].cidr.Contains(block.Network())
                <==> Overlap(block, networks[id].cidr)
        ensures networks[id].cidr in existing
      {
        TwoSidedTestIsOverlap(block, networks[id].cidr);
        assert networks[id].cidr in OwnedBlocks(networks, owner);
      }
      if i :| 0 <= i < |existing| && Overlap(block, existing[i]) {
        assert existing[i] in existing;
        var id :| id in OwnedBy(networks, owner) && networks[id].cidr == existing[i];
        assert networks[id].owner == owner;
      }
      if OverlapsOwn(networks, owner, block) {
        var id :| id in networks && networks[id].owner == owner &&
          (block.Contains(networks[id].cidr.Network()) || networks[id].cidr.Contains(block.Network()));
        assert id in OwnedBy(networks, owner);
        var i :| 0 <= i < |existing| && existing[i] == networks[id].cidr;
      }
    }

    method DeleteNetwork(actor: Actor, network: Id, replies: nat -> Reply) returns (answer: Answer)
      requires Valid()
      modifies repo, proxmox
      ensures Valid() && Performed(NetworkSteps.DeleteNetwork(actor, network), replies, answer)
      ensures old(Consistent(repo.Rows(), proxmox.State())) ==> Consistent(repo.Rows(), proxmox.State())
    {
      hide Consistent, Finish, TablesOk, SetNetworkState, DeleteNetworkRow, MembersOf;
      ghost var db, host := repo.Rows(), proxmox.State();
      ghost var req := NetworkSteps.DeleteNetwork(actor, network);
      PerformKeepsTables(db, host, req, replies);
      if Consistent(db, host) { PerformKeepsConsistent(db, host, req, replies); }

      Advance(db, host, Delete(Load(actor, network)), replies, 0);
      if replies(0).Fail? { return Internal; }
      if network !in repo.networks { return NotFound; }
      if !Owns(actor, repo.networks[network]) { return Forbidden; }
      var bridge := repo.networks[network].bridge;

      Advance(db, host, Delete(CheckEmpty(network, bridge)), replies, 1);
      if replies(1).Fail? { return Internal; }
      if MembersOf(repo.members, network) != {} { return HasMembers; }

      Advance(db, host, Delete(MarkDeleting(network, bridge)), replies, 2);
      var marked := repo.UpdateState(network, NetworkState.Deleting, replies(2));
      if !marked { return Internal; }

      Advance(repo.Rows(), host, Delete(RemoveBridge(network, bridge)), replies, 3);
      var removed := proxmox.DeleteBridge(bridge, replies(3));
      if !removed { return ProxmoxError; }

      Advance(repo.Rows(), proxmox.State(), Delete(DropRow(network)), replies, 4);
      var dropped := repo.Delete(network, replies(4));
      return if dropped then Success else Internal;
    }

    method AddMember(actor: Actor, network: Id, container: Id, mayUse: bool, replies: nat -> Reply) returns (answer: Answer)
      requires Valid()
      modifies repo, proxmox
      ensures Valid() && Performed(NetworkSteps.AddMember(actor, network, container, mayUse), replies, answer)
      ensures old(Consistent(repo.Rows(), proxmox.State())) ==> Consistent(repo.Rows(), proxmox.State())
    {
      hide Consistent, Finish, TablesOk, LowestFreeAddress, PrintAddress, LowestFree, InsertMember, SetMemberState;
      hide UsedSlots, UsedAddresses, UsedIn, UsedIps;
      ghost var db, host := repo.Rows(), proxmox.State();
      ghost var req := NetworkSteps.AddMember(actor, network, container, mayUse);
      PerformKeepsTables(db, host, req, replies);
      if Consistent(db, host) { PerformKeepsConsistent(db, host, req, replies); }

      Advance(db, host, Add(LoadNetwork(actor, network, container, mayUse)), replies, 0);
      if replies(0).Fail? { return Internal; }
      if network !in repo.networks { return NotFound; }
      if !Owns(actor, repo.networks[network]) { return Forbidden; }
      if repo.networks[network].state != NetworkState.Active { return NotActive; }
      if !mayUse { return Forbidden; }
      var net := Loaded(network, repo.networks[network].cidr, repo.networks[network].bridge, container);

      Advance(db, host, Add(LoadContainer(net)), replies, 1);
      if replies(1).Fail? { return Internal; }
      if container !in repo.containers { return NotFound; }
      var ctid := repo.containers[container];

      Advance(db, host, Add(CheckNotMember(net, ctid)), replies, 2);
      if replies(2).Fail? { return Internal; }
      if exists id :: id in MembersOf(repo.members, network) && repo.members[id].container == container { return AlreadyMember; }

      Advance(db, host, Add(ReadIps(net, ctid)), replies, 3);
      if replies(3).Fail? { return Internal; }
      var used := repo.ListUsedIps(network);
      var ip := AllocateIp(net.cidr, used);
      assert UsedAddresses(used) == UsedIn(db.members, network) by { TextsNameAddresses(db.members, network, used); }
      if ip.None? { return Exhausted; }

      Advance(db, host, Add(ReadSlots(net, ctid, ip.value)), replies, 4);
      if replies(4).Fail? { return Internal; }
      var slot := FindFree(1, MAX_SLOT, UsedSlots(repo.members, container));
      if slot.None? { return NoSlot; }

      answer := PlugIn(net, ctid, ip.value, slot.value, replies);
    }

    /** From reserving the address and slot on: row first, then the NIC, then the state. */
    method PlugIn(net: Loaded, ctid: int, ip: Address, slot: nat, replies: nat -> Reply) returns (answer: Answer)
      modifies repo, proxmox
      ensures Finished(Add(InsertMembership(net, ctid, ip, slot)), replies, 5, answer)
    {
      hide Finish, LowestFreeAddress, PrintAddress, LowestFree, InsertMember, SetMemberState, UsedSlots, UsedIn;
      hide MembersOf;
      ghost var db, host := repo.Rows(), proxmox.State();
      Advance(db, host, Add(InsertMembership(net, ctid, ip, slot)), replies, 5);
      var id := repo.InsertRow(Member(net.network, net.container, PrintAddress(ip), slot, Attaching), replies(5));
      if id.None? { return Internal; }

      Advance(repo.Rows(), host, Add(Attach(id.value, ctid, slot, net.bridge)), replies, 6);
      var attached := proxmox.AttachContainerNic(ctid, slot, net.bridge, replies(6));
      if !attached {
        Advance(repo.Rows(), proxmox.State(), Add(MarkAttachFailed(id.value)), replies, 7);
        var _ := repo.UpdateMemberState(id.value, MemberState.Failed, replies(7));
        return ProxmoxError;
      }

      Advance(repo.Rows(), proxmox.State(), Add(MarkActive(id.value)), replies, 7);
      var activated := repo.UpdateMemberState(id.value, MemberState.Active, replies(7));
      return if activated then Success else Internal;
    }

    /** Any list of exactly the stored texts names exactly the used addresses. */
    lemma TextsNameAddresses(members: Members, network: Id, texts: seq<string>)
      requires forall ip :: ip in texts <==> ip in UsedIps(members, network)
      ensures UsedAddresses(texts) == UsedIn(members, network)
    {
      hide ParseAddress;
      forall a | a in UsedIn(members, network)
        ensures a in UsedAddresses(texts)
      {
        var ip :| ip in UsedIps(members, network) && ParseAddress(ip).Some? && ParseAddress(ip).value == a;
        var i :| 0 <= i < |texts| && texts[i] == ip;
      }
      forall a | a in UsedAddresses(texts)
        ensures a in UsedIn(members, network)
      {
        var i :| 0 <= i < |texts| && ParseAddress(texts[i]).Some? && ParseAddress(texts[i]).value == a;
        assert texts[i] in texts;
      }
    }

    method RemoveMember(actor: Actor, network: Id, container: Id, mayUse: bool, replies: nat -> Reply) returns (answer: Answer)
      requires Valid()
      modifies repo, proxmox
      ensures Valid() && Performed(NetworkSteps.RemoveMember(actor, network, container, mayUse), replies, answer)
      ensures old(Consistent(repo.Rows(), proxmox.State())) ==> Consistent(repo.Rows(), proxmox.State())
    {
      hide Consistent, Finish, TablesOk, SetMemberState, DeleteMemberRow, Pick;
      ghost var db, host := repo.Rows(), proxmox.State();
      ghost var req := NetworkSteps.RemoveMember(actor, network, container, mayUse);
      PerformKeepsTables(db, host, req, replies);
      if Consistent(db, host) { PerformKeepsConsistent(db, host, req, replies); }

      Advance(db, host, Remove(LoadFor(actor, network, container, mayUse)), replies, 0);
      if replies(0).Fail? { return Internal; }
      if network !in repo.networks { return NotFound; }
      if !Owns(actor, repo.networks[network]) || !mayUse { return Forbidden; }

      Advance(db, host, Remove(FindMember(network, container)), replies, 1);
      if replies(1).Fail? { return Internal; }
      var found := RowsOf(repo.members, network, container);
      if found == {} { return NotFound; }
      var member :| member in found;
      OneRow(db, member, Pick(found));
      var row := repo.members[member];

      Advance(db, host, Remove(FindContainer(member, row)), replies, 2);
      if replies(2).Fail? { return Internal; }
      if container !in repo.containers { return NotFound; }
      var ctid := repo.containers[container];

      answer := Unplug(member, row, ctid, replies);
    }

    /** From marking the row on: NIC first, then the row. */
    method Unplug(member: Id, row: Member, ctid: int, replies: nat -> Reply) returns (answer: Answer)
      modifies repo, proxmox
      ensures Finished(Remove(MarkDetaching(member, row, ctid)), replies, 3, answer)
    {
      hide Finish, SetMemberState, DeleteMemberRow, Pick, MembersOf;
      ghost var db, host := repo.Rows(), proxmox.State();
      Advance(db, host, Remove(MarkDetaching(member, row, ctid)), replies, 3);
      var marked := repo.UpdateMemberState(member, Detaching, replies(3));
      if !marked { return Internal; }

      Advance(repo.Rows(), host, Remove(Detach(member, row, ctid)), replies, 4);
      var detached := proxmox.DetachContainerNic(ctid, row.slot, replies(4));
      if !detached {
        Advance(repo.Rows(), proxmox.State(), Remove(MarkDetachFailed(member)), replies, 5);
        var _ := repo.UpdateMemberState(member, MemberState.Failed, replies(5));
        return ProxmoxError;
      }

      Advance(repo.Rows(), proxmox.State(), Remove(DropMembership(row.network, row.container)), replies, 5);
      var dropped := repo.DeleteMember(row.network, row.container, replies(5));
      return if dropped then Success else Internal;
    }
  }
}
