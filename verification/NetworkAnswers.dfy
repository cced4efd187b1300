/** Every network operation's answer and effect, check by check in the order of the checks. */
module NetworkAnswers {
  import opened Basics
  import opened Ipv4
  import opened Addressing
  import opened NetworkTables
  import opened NetworkSteps
  import opened NetworkInterleaved
  import opened NetworkConsistency
  import NetworkMeetings
  import opened NetworkRequests

  const ALL_DONE: nat -> Reply := (k: nat) => Done

  ghost predicate Failed(answer: Answer) { answer.Internal? || answer.ProxmoxError? }

  /** A failing reply ends in an internal or a host error. */
  lemma FailureFails(db: Db, host: Host, p: Proc, reply: Reply)
    requires reply.Fail? || MarksFailure(p)
    ensures var o := Step(db, host, p, reply);
            if o.next.Return? then Failed(o.next.answer) else reply.Fail? && MarksFailure(o.next.p)
  {
    hide LowestFreeAddress, PrintAddress, LowestFree, UsedIn, UsedSlots, MembersOf, OverlapsOwn, Clash, Pick, AsI32;
  }

  lemma {:induction false} DoneUnlessFailed(db: Db, host: Host, next: Next, replies: nat -> Reply, k: nat)
    requires !Failed(Finish(db, host, next, replies, k).answer)
    ensures Finish(db, host, next, replies, k) == Finish(db, host, next, ALL_DONE, k)
    decreases if next.Continue? then Rank(next.p) else 0
  {
    hide Step, Rank, Finish, MarksFailure;
    match next
    case Return(answer) =>
      Returned(db, host, answer, replies, k);
      Returned(db, host, answer, ALL_DONE, k);
    case Continue(p) =>
      Advance(db, host, p, replies, k);
      Advance(db, host, p, ALL_DONE, k);
      RankFalls(db, host, p, Done);
      var o := Step(db, host, p, replies(k));
      if replies(k).Fail? {
        FailureFails(db, host, p, replies(k));
        if o.next.Continue? { FailureMarked(o.db, o.host, o.next.p, replies, k + 1); }
      } else if o.next.Continue? {
        DoneUnlessFailed(o.db, o.host, o.next, replies, k + 1);
      }
  }

  ghost function Answered(db: Db, host: Host, req: Request): Final { Perform(db, host, req, ALL_DONE) }

  /** Any other script either fails internally or on the host, or gives the same. */
  lemma AnsweredUnlessFailed(db: Db, host: Host, req: Request, replies: nat -> Reply)
    ensures !Failed(Perform(db, host, req, replies).answer) ==> Perform(db, host, req, replies) == Answered(db, host, req)
  {
    hide Finish;
    if !Failed(Perform(db, host, req, replies).answer) { DoneUnlessFailed(db, host, Start(req), replies, 0); }
  }

  // --- Create -----------------------------------------------------------------------------------

  /** Networks that count against the limits. */
  ghost function Counting(networks: Networks): set<Id> {
    set id | id in networks && networks[id].state in {NetworkState.Creating, NetworkState.Active}
  }

  ghost function CountingOf(networks: Networks, owner: Id): set<Id> {
    set id | id in networks && networks[id].owner == owner && networks[id].state in {NetworkState.Creating, NetworkState.Active}
  }

  ghost predicate OverlapsSome(networks: Networks, owner: Id, cidr: Net) {
    exists id :: id in networks && networks[id].owner == owner && Overlap(cidr, networks[id].cidr)
  }

  lemma OwnTestIsOverlap(networks: Networks, owner: Id, cidr: Net)
    ensures OverlapsOwn(networks, owner, cidr) <==> OverlapsSome(networks, owner, cidr)
  {
    hide Overlap, Net.Contains, Net.Network;
    forall id | id in networks
      ensures Overlap(cidr, networks[id].cidr) <==>
              cidr.Contains(networks[id].cidr.Network()) || networks[id].cidr.Contains(cidr.Network())
    {
      TwoSidedTestIsOverlap(cidr, networks[id].cidr);
    }
  }

  /** The bridge number is the drawn value cut to 32 bits. */
  ghost predicate CutTo32(number: int, drawn: nat) {
    -0x8000_0000 <= number < 0x8000_0000 && (drawn - number) % 0x1_0000_0000 == 0
  }

  lemma AsI32Cuts(drawn: nat)
    ensures CutTo32(AsI32(drawn), drawn)
  {
  }

  ghost predicate MayAsk(nameOk: bool, cidr: Option<Net>) {
    nameOk && cidr.Some? && 16 <= cidr.value.prefix <= 28 && InsideOnePrivateRange(cidr.value)
  }

  /** The network the request stores, under this number. */
  ghost predicate Stored(db: Db, host: Host, owner: Id, cidr: Net, bridge: int, f: Final) {
    && f.answer == Success && f.host == host.(bridges := host.bridges + {bridge})
    && f.db == db.(networks := db.networks[db.issued := Network(owner, bridge, cidr, NetworkState.Active)],
                   nextBridge := db.nextBridge + 1, issued := db.issued + 1)
  }

  lemma CreateAnswer(db: Db, host: Host, actor: Actor, nameOk: bool, cidr: Option<Net>)
    ensures var f := Answered(db, host, CreateNetwork(actor, nameOk, cidr));
            if !MayAsk(nameOk, cidr) then f == Final(db, host, Validation)
            else if |Counting(db.networks)| >= 100 then f == Final(db, host, NodeLimit)
            else if |CountingOf(db.networks, actor.user)| >= 5 then f == Final(db, host, UserLimit)
            else if OverlapsSome(db.networks, actor.user, cidr.value) then f == Final(db, host, Overlaps)
            else
              exists bridge :: CutTo32(bridge, db.nextBridge) &&
                if exists id :: id in db.networks && db.networks[id].bridge == bridge
                then f == Final(db.(nextBridge := db.nextBridge + 1), host, Internal)
                else Stored(db, host, actor.user, cidr.value, bridge, f)
  {
    hide Finish, ValidateCidr, OverlapsOwn, AsI32, Overlap, Net.Contains, Net.Network, InsideOnePrivateRange;
    var req := CreateNetwork(actor, nameOk, cidr);
    var f := Answered(db, host, req);
    ValidateCidrMeaning(cidr);
    if !MayAsk(nameOk, cidr) {
      Returned(db, host, Validation, ALL_DONE, 0);
    } else {
      var c, owner, next := cidr.value, actor.user, db.nextBridge;
      assert Live(db.networks) == Counting(db.networks);
      assert LiveOf(db.networks, owner) == CountingOf(db.networks, owner);
      Advance(db, host, Create(CountNode(owner, c)), ALL_DONE, 0);
      Advance(db, host, Create(CountUser(owner, c)), ALL_DONE, 1);
      Advance(db, host, Create(ListOwn(owner, c)), ALL_DONE, 2);
      OwnTestIsOverlap(db.networks, owner, c);
      AsI32Cuts(next);
      hide OverlapsSome, CutTo32;
      var db1 := db.(nextBridge := next + 1);
      Advance(db, host, Create(DrawBridge(owner, c)), ALL_DONE, 3);
      StoringAnswers(db1, host, owner, c, AsI32(next));
    }
  }

  lemma StoringAnswers(db: Db, host: Host, owner: Id, cidr: Net, bridge: int)
    ensures var f := Finish(db, host, Continue(Create(InsertRow(owner, cidr, bridge))), ALL_DONE, 4);
            if exists id :: id in db.networks && db.networks[id].bridge == bridge then f == Final(db, host, Internal)
            else f == Final(db.(networks := db.networks[db.issued := Network(owner, bridge, cidr, NetworkState.Active)],
                                issued := db.issued + 1), host.(bridges := host.bridges + {bridge}), Success)
  {
    hide Finish;
    Advance(db, host, Create(InsertRow(owner, cidr, bridge)), ALL_DONE, 4);
    var n := Network(owner, bridge, cidr, Creating);
    BridgingAnswers(db.(networks := db.networks[db.issued := n], issued := db.issued + 1), host, db.issued, bridge);
    assert db.networks[db.issued := n][db.issued := n.(state := NetworkState.Active)]
           == db.networks[db.issued := n.(state := NetworkState.Active)];
  }

  lemma BridgingAnswers(db: Db, host: Host, id: Id, bridge: int)
    requires id in db.networks
    ensures Finish(db, host, Continue(Create(MakeBridge(id, bridge))), ALL_DONE, 5) ==
            Final(db.(networks := db.networks[id := db.networks[id].(state := NetworkState.Active)]),
                  host.(bridges := host.bridges + {bridge}), Success)
  {
    hide Finish;
    Advance(db, host, Create(MakeBridge(id, bridge)), ALL_DONE, 5);
    Advance(db, host.(bridges := host.bridges + {bridge}), Create(Activate(id)), ALL_DONE, 6);
  }

  // --- Delete -----------------------------------------------------------------------------------

  ghost predicate MayManage(actor: Actor, n: Network) { actor.admin || actor.user == n.owner }

  ghost predicate HasMember(members: Members, network: Id) { exists id :: id in members && members[id].network == network }

  lemma DeleteAnswer(db: Db, host: Host, actor: Actor, network: Id)
    ensures Answered(db, host, DeleteNetwork(actor, network)) ==
            if network !in db.networks then Final(db, host, NotFound)
            else if !(actor.admin || actor.user == db.networks[network].owner) then Final(db, host, Forbidden)
            else if HasMember(db.members, network) then Final(db, host, HasMembers)
            else Final(db.(networks := db.networks - {network}),
                       host.(bridges := host.bridges - {db.networks[network].bridge}), Success)
  {
    hide Finish;
    Advance(db, host, Delete(DeleteProc.Load(actor, network)), ALL_DONE, 0);
    if network in db.networks && MayManage(actor, db.networks[network]) {
      var bridge := db.networks[network].bridge;
      assert MembersOf(db.members, network) == {} <==> !HasMember(db.members, network) by { NoMembers(db.members, network); }
      Advance(db, host, Delete(CheckEmpty(network, bridge)), ALL_DONE, 1);
      Advance(db, host, Delete(MarkDeleting(network, bridge)), ALL_DONE, 2);
      var db1 := SetNetworkState(db, network, NetworkState.Deleting);
      Advance(db1, host, Delete(RemoveBridge(network, bridge)), ALL_DONE, 3);
      var host1 := host.(bridges := host.bridges - {bridge});
      Advance(db1, host1, Delete(DropRow(network)), ALL_DONE, 4);
      assert db1.networks - {network} == db.networks - {network};
    }
  }

  lemma NoMembers(members: Members, network: Id)
    ensures MembersOf(members, network) == {} <==> !HasMember(members, network)
  {
    if id :| id in members && members[id].network == network { assert id in MembersOf(members, network); }
  }

  // --- Add ---------------------------------------------------------------------------------------

  ghost predicate IsMember(members: Members, network: Id, container: Id) {
    exists id :: id in members && members[id].network == network && members[id].container == container
  }

  ghost predicate LowestAddress(cidr: Net, members: Members, network: Id, ip: Address) {
    && cidr.Network() + 2 <= ip < cidr.Broadcast() && !Taken(members, network, ip)
    && forall other: Address :: cidr.Network() + 2 <= other < ip ==> Taken(members, network, other)
  }

  /** Some membership of the network holds the address, as text. */
  ghost predicate Taken(members: Members, network: Id, ip: Address) {
    exists id :: id in members && members[id].network == network && members[id].ip == PrintAddress(ip)
  }

  ghost predicate SlotTaken(members: Members, container: Id, slot: nat) {
    exists id :: id in members && members[id].container == container && members[id].slot == slot
  }

  ghost predicate LowestSlot(members: Members, container: Id, slot: nat) {
    1 <= slot <= 15 && !SlotTaken(members, container, slot) && forall other: nat :: 1 <= other < slot ==> SlotTaken(members, container, other)
  }

  lemma TakenIsUsed(members: Members, network: Id, ip: Address)
    ensures Taken(members, network, ip) <==> ip in UsedIn(members, network)
  {
    hide UsedIn, PrintAddress;
    UsedIsAllocated(members, network, ip);
  }

  lemma SlotTakenIsUsed(members: Members, container: Id, slot: nat)
    ensures SlotTaken(members, container, slot) <==> slot in UsedSlots(members, container)
  {
  }

  ghost predicate NoAddress(cidr: Net, members: Members, network: Id) {
    forall ip: Address :: cidr.Network() + 2 <= ip < cidr.Broadcast() ==> Taken(members, network, ip)
  }

  ghost predicate NoSlotFree(members: Members, container: Id) { forall slot: nat :: 1 <= slot <= 15 ==> SlotTaken(members, container, slot) }

  lemma AddressFound(cidr: Net, members: Members, network: Id)
    requires cidr.prefix < 31
    ensures match LowestFreeAddress(cidr, UsedIn(members, network))
            case None => NoAddress(cidr, members, network)
            case Some(ip) => LowestAddress(cidr, members, network, ip)
  {
    hide UsedIn, Taken, LowestFree, Net.Network;
    forall ip: Address
      ensures Taken(members, network, ip) <==> ip in UsedIn(members, network)
    {
      TakenIsUsed(members, network, ip);
    }
  }

  lemma SlotFound(members: Members, container: Id)
    ensures match LowestFree(1, MAX_SLOT, UsedSlots(members, container))
            case None => NoSlotFree(members, container)
            case Some(slot) => LowestSlot(members, container, slot)
  {
    hide UsedSlots, SlotTaken, LowestFree;
    forall slot: nat
      ensures SlotTaken(members, container, slot) <==> slot in UsedSlots(members, container)
    {
      SlotTakenIsUsed(members, container, slot);
    }
  }

  /** Everything before the allocation, in order. */
  ghost function AddRefusal(db: Db, actor: Actor, network: Id, container: Id, mayUse: bool): Option<Answer> {
    if network !in db.networks then Some(NotFound)
    else if !(actor.admin || actor.user == db.networks[network].owner) then Some(Forbidden)
    else if db.networks[network].state != NetworkState.Active then Some(NotActive)
    else if !mayUse then Some(Forbidden)
    else if container !in db.containers then Some(NotFound)
    else if IsMember(db.members, network, container) then Some(AlreadyMember)
    else None
  }

  /** The membership is stored, active and plugged in, with this address and slot. */
  ghost predicate MemberStored(db: Db, host: Host, network: Id, container: Id, ip: Address, slot: nat, f: Final)
    requires network in db.networks && container in db.containers
  {
    && f.answer == Success
    && f.db == db.(members := db.members[db.issued := Member(network, container, PrintAddress(ip), slot, MemberState.Active)],
                   issued := db.issued + 1)
    && f.host == host.(nics := host.nics[(db.containers[container], slot) := db.networks[network].bridge])
  }

  lemma AddAnswer(db: Db, host: Host, actor: Actor, network: Id, container: Id, mayUse: bool)
    requires TablesOk(db)
    ensures var f := Answered(db, host, AddMember(actor, network, container, mayUse));
            match AddRefusal(db, actor, network, container, mayUse)
            case Some(answer) => f == Final(db, host, answer)
            case None =>
              var cidr := db.networks[network].cidr;
              if NoAddress(cidr, db.members, network) then f == Final(db, host, Exhausted)
              else if NoSlotFree(db.members, container) then f == Final(db, host, NoSlot)
              else exists ip, slot :: LowestAddress(cidr, db.members, network, ip) && LowestSlot(db.members, container, slot)
                                      && MemberStored(db, host, network, container, ip, slot, f)
  {
    hide Finish, TablesOk, LowestFreeAddress, LowestFree, UsedIn, UsedSlots, PrintAddress, Net.Network, Net.Broadcast;
    var f := Answered(db, host, AddMember(actor, network, container, mayUse));
    Advance(db, host, Add(LoadNetwork(actor, network, container, mayUse)), ALL_DONE, 0);
    if network in db.networks && (actor.admin || actor.user == db.networks[network].owner)
       && db.networks[network].state == NetworkState.Active && mayUse {
      var n := db.networks[network];
      var net := Loaded(network, n.cidr, n.bridge, container);
      Advance(db, host, Add(LoadContainer(net)), ALL_DONE, 1);
      if container in db.containers {
        var ctid := db.containers[container];
        Advance(db, host, Add(CheckNotMember(net, ctid)), ALL_DONE, 2);
        MemberFound(db.members, network, container);
        if !IsMember(db.members, network, container) {
          CidrStored(db, network);
          AddressFound(n.cidr, db.members, network);
          SlotFound(db.members, container);
          AllocatingAnswers(db, host, actor, net, ctid);
          hide Taken, SlotTaken;
          assert NoAddress(n.cidr, db.members, network) <==> LowestFreeAddress(n.cidr, UsedIn(db.members, network)).None?;
          assert NoSlotFree(db.members, container) <==> LowestFree(1, MAX_SLOT, UsedSlots(db.members, container)).None?;
        }
      }
    }
  }

  lemma MemberFound(members: Members, network: Id, container: Id)
    ensures IsMember(members, network, container) <==> exists id :: id in MembersOf(members, network) && members[id].container == container
  {
    if id :| id in members && members[id].network == network && members[id].container == container {
      assert id in MembersOf(members, network);
    }
  }

  lemma CidrStored(db: Db, network: Id)
    requires TablesOk(db) && network in db.networks
    ensures 16 <= db.networks[network].cidr.prefix <= 28
  {
    hide ContainersOk, MembersOk, NoClash, IsPrivateNetworkAddress;
  }

  lemma AllocatingAnswers(db: Db, host: Host, actor: Actor, net: Loaded, ctid: int)
    requires net.network in db.networks && net.container in db.containers && db.containers[net.container] == ctid
    requires var n := db.networks[net.network];
             n.state == NetworkState.Active && n.cidr == net.cidr && n.bridge == net.bridge && (actor.admin || actor.user == n.owner)
    requires forall id :: id in MembersOf(db.members, net.network) ==> db.members[id].container != net.container
    ensures var f := Finish(db, host, Continue(Add(ReadIps(net, ctid))), ALL_DONE, 3);
            var ip := LowestFreeAddress(net.cidr, UsedIn(db.members, net.network));
            var slot := LowestFree(1, MAX_SLOT, UsedSlots(db.members, net.container));
            if ip.None? then f == Final(db, host, Exhausted)
            else if slot.None? then f == Final(db, host, NoSlot)
            else MemberStored(db, host, net.network, net.container, ip.value, slot.value, f)
  {
    hide Finish, LowestFreeAddress, LowestFree, UsedIn, UsedSlots, PrintAddress, MembersOf, Clash;
    Advance(db, host, Add(ReadIps(net, ctid)), ALL_DONE, 3);
    var found := LowestFreeAddress(net.cidr, UsedIn(db.members, net.network));
    if found.Some? {
      var ip := found.value;
      Advance(db, host, Add(ReadSlots(net, ctid, ip)), ALL_DONE, 4);
      var free := LowestFree(1, MAX_SLOT, UsedSlots(db.members, net.container));
      if free.Some? {
        var slot, id := free.value, db.issued;
        NetworkMeetings.MayInsert(db, actor, net, ctid, ip, slot);
        var m := Member(net.network, net.container, PrintAddress(ip), slot, Attaching);
        Advance(db, host, Add(InsertMembership(net, ctid, ip, slot)), ALL_DONE, 5);
        var db1 := db.(members := db.members[id := m], issued := id + 1);
        Advance(db1, host, Add(Attach(id, ctid, slot, net.bridge)), ALL_DONE, 6);
        var host1 := host.(nics := host.nics[(ctid, slot) := net.bridge]);
        Advance(db1, host1, Add(MarkActive(id)), ALL_DONE, 7);
        assert db1.members[id := db1.members[id].(state := MemberState.Active)] == db.members[id := m.(state := MemberState.Active)];
      }
    }
  }

  // --- Remove -------------------------------------------------------------------------------------

  /**
   * A remove succeeds exactly for an admin or the network's owner with permission on the container, on an existing row; it
   * deletes exactly that row and frees exactly its NIC slot. To anyone else it changes nothing.
   */
  lemma RemoveAnswer(db: Db, host: Host, actor: Actor, network: Id, container: Id, mayUse: bool)
    requires TablesOk(db)
    ensures var f := Answered(db, host, RemoveMember(actor, network, container, mayUse));
            if network !in db.networks then f == Final(db, host, NotFound)
            else if !(actor.admin || actor.user == db.networks[network].owner) || !mayUse then f == Final(db, host, Forbidden)
            else if !IsMember(db.members, network, container) then f == Final(db, host, NotFound)
            else exists id ::
              && id in db.members && db.members[id].network == network && db.members[id].container == container
              && f == Final(db.(members := db.members - {id}),
                            host.(nics := host.nics - {(db.containers[container], db.members[id].slot)}), Success)
  {
    hide Finish, TablesOk, Pick;
    Advance(db, host, Remove(LoadFor(actor, network, container, mayUse)), ALL_DONE, 0);
    if network in db.networks && MayManage(actor, db.networks[network]) && mayUse {
      Advance(db, host, Remove(FindMember(network, container)), ALL_DONE, 1);
      MemberFound(db.members, network, container);
      var found := RowsOf(db.members, network, container);
      if IsMember(db.members, network, container) {
        var some :| some in MembersOf(db.members, network) && db.members[some].container == container;
        assert some in found;
        var id := Pick(found);
        MemberHasContainer(db, id);
        RemovingAnswers(db, host, id);
      } else {
        assert found == {};
      }
    }
  }

  lemma MemberHasContainer(db: Db, id: Id)
    requires TablesOk(db) && id in db.members
    ensures db.members[id].container in db.containers
  {
    hide NetworksOk, ContainersOk, NoClash, AddressInRange;
    assert MemberOk(db, id, db.members[id]);
  }

  lemma RemovingAnswers(db: Db, host: Host, id: Id)
    requires TablesOk(db) && id in db.members && db.members[id].container in db.containers
    ensures var row := db.members[id];
            Finish(db, host, Continue(Remove(FindContainer(id, row))), ALL_DONE, 2)
            == Final(db.(members := db.members - {id}),
                     host.(nics := host.nics - {(db.containers[row.container], row.slot)}), Success)
  {
    hide Finish, TablesOk;
    var row := db.members[id];
    var ctid := db.containers[row.container];
    Advance(db, host, Remove(FindContainer(id, row)), ALL_DONE, 2);
    Advance(db, host, Remove(MarkDetaching(id, row, ctid)), ALL_DONE, 3);
    var db1 := SetMemberState(db, id, Detaching);
    Advance(db1, host, Remove(Detach(id, row, ctid)), ALL_DONE, 4);
    var host1 := host.(nics := host.nics - {(ctid, row.slot)});
    Advance(db1, host1, Remove(DropMembership(row.network, row.container)), ALL_DONE, 5);
    forall other | other in db.members && other != id
      ensures db.members[other].network != row.network || db.members[other].container != row.container
    {
      if db.members[other].network == row.network && db.members[other].container == row.container { OneRow(db, other, id); }
    }
    assert DeleteMemberRow(db1, row.network, row.container).members == db.members - {id};
  }

  // --- Whoever may not ---------------------------------------------------------------------------

  /** Neither an admin nor the owner of the network, or without permission on the container. */
  ghost predicate Stranger(db: Db, req: Request) {
    match req
    case CreateNetwork(_, _, _) => false
    case DeleteNetwork(actor, network) =>
      network !in db.networks || !(actor.admin || actor.user == db.networks[network].owner)
    case AddMember(actor, network, _, mayUse) =>
      network !in db.networks || !(actor.admin || actor.user == db.networks[network].owner) || !mayUse
    case RemoveMember(actor, network, _, mayUse) =>
      network !in db.networks || !(actor.admin || actor.user == db.networks[network].owner) || !mayUse
  }

  /** Whatever the replies, a stranger's request is refused or fails, and changes neither rows nor host. */
  lemma StrangersChangeNothing(db: Db, host: Host, req: Request, replies: nat -> Reply)
    requires Stranger(db, req)
    ensures var f := Perform(db, host, req, replies);
            f.db == db && f.host == host && f.answer in {NotFound, Forbidden, NotActive, Internal}
  {
    hide Finish;
    Advance(db, host, Start(req).p, replies, 0);
  }
}
