/** What a failing await leaves behind, and what is answered then. */
module NetworkFailures {
  import opened Basics
  import opened Ipv4
  import opened Addressing
  import opened NetworkTables
  import opened NetworkSteps
  import opened NetworkInterleaved
  import opened NetworkConsistency
  import opened NetworkRequests
  import opened NetworkAnswers

  /** A call to the Proxmox host. */
  ghost predicate HostCall(p: Proc) {
    (p.Create? && p.c.MakeBridge?) || (p.Delete? && p.d.RemoveBridge?) || (p.Add? && p.a.Attach?) || (p.Remove? && p.r.Detach?)
  }

  /** Recording that a host call failed. */
  ghost predicate Mark(p: Proc) { (p.Add? && p.a.MarkAttachFailed?) || (p.Remove? && p.r.MarkDetachFailed?) }

  /**
   * An await that failed without effect changes nothing; one that failed after taking effect leaves what success leaves. Either
   * way a failed host call is reported as one, by a member operation after it tried to mark the row, and any other failure as
   * an internal error.
   */
  lemma FailureLaw(db: Db, host: Host, p: Proc, acted: bool)
    ensures var o, done := Step(db, host, p, Fail(acted)), Step(db, host, p, Done);
            && o.db == (if acted then done.db else db) && o.host == (if acted then done.host else host)
            && (HostCall(p) && (p.Create? || p.Delete?) ==> o.next == Return(ProxmoxError))
            && (p.Add? && p.a.Attach? ==> o.next == Continue(Add(MarkAttachFailed(p.a.member))))
            && (p.Remove? && p.r.Detach? ==> o.next == Continue(Remove(MarkDetachFailed(p.r.member))))
            && (Mark(p) ==> o.next == Return(ProxmoxError))
            && (!HostCall(p) && !Mark(p) ==> o.next == Return(Internal))
  {
    hide LowestFreeAddress, PrintAddress, LowestFree, UsedIn, UsedSlots, MembersOf, OverlapsOwn, Clash, Pick, AsI32, Live, LiveOf;
  }

  /** Only await k fails. */
  ghost function FailingAt(k: nat, acted: bool): nat -> Reply { (j: nat) => if j == k then Fail(acted) else Done }

  /** A create whose bridge call fails leaves its row creating, and the bridge exactly if the call took effect. */
  lemma CreateBridgeFails(db: Db, host: Host, actor: Actor, nameOk: bool, cidr: Option<Net>, acted: bool)
    requires Answered(db, host, CreateNetwork(actor, nameOk, cidr)).answer == Success
    ensures var f := Perform(db, host, CreateNetwork(actor, nameOk, cidr), FailingAt(5, acted));
            exists bridge :: CutTo32(bridge, db.nextBridge)
              && f == Final(db.(networks := db.networks[db.issued := Network(actor.user, bridge, cidr.value, Creating)],
                                nextBridge := db.nextBridge + 1, issued := db.issued + 1),
                            if acted then host.(bridges := host.bridges + {bridge}) else host, ProxmoxError)
  {
    hide Finish, ValidateCidr, OverlapsOwn, AsI32, Live, LiveOf, CutTo32;
    var replies := FailingAt(5, acted);
    if nameOk && ValidateCidr(cidr).Ok? {
      ValidateCidrMeaning(cidr);
      var c, owner, next := cidr.value, actor.user, db.nextBridge;
      Advance(db, host, Create(CountNode(owner, c)), ALL_DONE, 0);
      Advance(db, host, Create(CountNode(owner, c)), replies, 0);
      Advance(db, host, Create(CountUser(owner, c)), ALL_DONE, 1);
      Advance(db, host, Create(CountUser(owner, c)), replies, 1);
      Advance(db, host, Create(ListOwn(owner, c)), ALL_DONE, 2);
      Advance(db, host, Create(ListOwn(owner, c)), replies, 2);
      Advance(db, host, Create(DrawBridge(owner, c)), ALL_DONE, 3);
      Advance(db, host, Create(DrawBridge(owner, c)), replies, 3);
      var bridge, db1 := AsI32(next), db.(nextBridge := next + 1);
      AsI32Cuts(next);
      StoringAnswers(db1, host, owner, c, bridge);
      StoringFails(db1, host, owner, c, bridge, acted);
    } else {
      Returned(db, host, Validation, ALL_DONE, 0);
    }
  }

  lemma StoringFails(db: Db, host: Host, owner: Id, cidr: Net, bridge: int, acted: bool)
    requires forall id :: id in db.networks ==> db.networks[id].bridge != bridge
    ensures Finish(db, host, Continue(Create(InsertRow(owner, cidr, bridge))), FailingAt(5, acted), 4) ==
            Final(db.(networks := db.networks[db.issued := Network(owner, bridge, cidr, Creating)], issued := db.issued + 1),
                  if acted then host.(bridges := host.bridges + {bridge}) else host, ProxmoxError)
  {
    hide Finish;
    var id, replies := db.issued, FailingAt(5, acted);
    Advance(db, host, Create(InsertRow(owner, cidr, bridge)), replies, 4);
    var db1 := db.(networks := db.networks[id := Network(owner, bridge, cidr, Creating)], issued := id + 1);
    Advance(db1, host, Create(MakeBridge(id, bridge)), replies, 5);
  }

  /** A delete whose bridge call fails leaves its row deleting, and the bridge unless the call took effect. */
  lemma DeleteBridgeFails(db: Db, host: Host, actor: Actor, network: Id, acted: bool)
    requires Answered(db, host, DeleteNetwork(actor, network)).answer == Success
    ensures network in db.networks
    ensures var n := db.networks[network];
            Perform(db, host, DeleteNetwork(actor, network), FailingAt(3, acted)) ==
            Final(db.(networks := db.networks[network := n.(state := NetworkState.Deleting)]),
                  if acted then host.(bridges := host.bridges - {n.bridge}) else host, ProxmoxError)
  {
    hide Finish;
    var replies := FailingAt(3, acted);
    DeleteAnswer(db, host, actor, network);
    var bridge := db.networks[network].bridge;
    NoMembers(db.members, network);
    Advance(db, host, Delete(DeleteProc.Load(actor, network)), replies, 0);
    Advance(db, host, Delete(CheckEmpty(network, bridge)), replies, 1);
    Advance(db, host, Delete(MarkDeleting(network, bridge)), replies, 2);
    Advance(SetNetworkState(db, network, NetworkState.Deleting), host, Delete(RemoveBridge(network, bridge)), replies, 3);
  }

  /** An add whose attach call fails leaves its row failed, with the NIC in place exactly if the call took effect. */
  lemma AttachFails(db: Db, host: Host, actor: Actor, network: Id, container: Id, acted: bool)
    requires TablesOk(db) && Answered(db, host, AddMember(actor, network, container, true)).answer == Success
    ensures network in db.networks && container in db.containers
    ensures var f, done := Perform(db, host, AddMember(actor, network, container, true), FailingAt(6, acted)),
                           Answered(db, host, AddMember(actor, network, container, true));
            && db.issued in done.db.members
            && f == Final(done.db.(members := done.db.members[db.issued := done.db.members[db.issued].(state := MemberState.Failed)]),
                          if acted then done.host else host, ProxmoxError)
  {
    hide Finish, TablesOk, LowestFreeAddress, LowestFree, UsedIn, UsedSlots, PrintAddress, MembersOf, InsertMember;
    var replies, req := FailingAt(6, acted), AddMember(actor, network, container, true);
    AddAnswer(db, host, actor, network, container, true);
    var n, ctid := db.networks[network], db.containers[container];
    var net := Loaded(network, n.cidr, n.bridge, container);
    Advance(db, host, Add(LoadNetwork(actor, network, container, true)), ALL_DONE, 0);
    Advance(db, host, Add(LoadNetwork(actor, network, container, true)), replies, 0);
    Advance(db, host, Add(LoadContainer(net)), ALL_DONE, 1);
    Advance(db, host, Add(LoadContainer(net)), replies, 1);
    Advance(db, host, Add(CheckNotMember(net, ctid)), ALL_DONE, 2);
    Advance(db, host, Add(CheckNotMember(net, ctid)), replies, 2);
    Advance(db, host, Add(ReadIps(net, ctid)), ALL_DONE, 3);
    Advance(db, host, Add(ReadIps(net, ctid)), replies, 3);
    var ip := LowestFreeAddress(n.cidr, UsedIn(db.members, network)).value;
    Advance(db, host, Add(ReadSlots(net, ctid, ip)), ALL_DONE, 4);
    Advance(db, host, Add(ReadSlots(net, ctid, ip)), replies, 4);
    var slot := LowestFree(1, MAX_SLOT, UsedSlots(db.members, container)).value;
    Advance(db, host, Add(InsertMembership(net, ctid, ip, slot)), ALL_DONE, 5);
    Advance(db, host, Add(InsertMembership(net, ctid, ip, slot)), replies, 5);
    AttachingFails(db, host, net, ctid, ip, slot, acted);
  }

  lemma AttachingFails(db: Db, host: Host, net: Loaded, ctid: int, ip: Address, slot: nat, acted: bool)
    requires InsertMember(db, Member(net.network, net.container, PrintAddress(ip), slot, Attaching)).Some?
    ensures var db1 := InsertMember(db, Member(net.network, net.container, PrintAddress(ip), slot, Attaching)).value;
            var f := Finish(db1, host, Continue(Add(Attach(db.issued, ctid, slot, net.bridge))), FailingAt(6, acted), 6);
            var done := Finish(db1, host, Continue(Add(Attach(db.issued, ctid, slot, net.bridge))), ALL_DONE, 6);
            && db.issued in done.db.members
            && f == Final(done.db.(members := done.db.members[db.issued := done.db.members[db.issued].(state := MemberState.Failed)]),
                          if acted then done.host else host, ProxmoxError)
  {
    hide Finish, PrintAddress, Clash;
    var id, replies := db.issued, FailingAt(6, acted);
    var m := Member(net.network, net.container, PrintAddress(ip), slot, Attaching);
    var db1 := InsertMember(db, m).value;
    var plugged := host.(nics := host.nics[(ctid, slot) := net.bridge]);
    Advance(db1, host, Add(Attach(id, ctid, slot, net.bridge)), ALL_DONE, 6);
    Advance(db1, host, Add(Attach(id, ctid, slot, net.bridge)), replies, 6);
    Advance(db1, plugged, Add(MarkActive(id)), ALL_DONE, 7);
    Advance(db1, if acted then plugged else host, Add(MarkAttachFailed(id)), replies, 7);
    var active := m.(state := MemberState.Active);
    assert db1.members[id := active][id := active.(state := MemberState.Failed)] == db1.members[id := m.(state := MemberState.Failed)];
  }

  /** A remove whose detach call fails leaves its row failed, with the NIC in place unless the call took effect. */
  lemma DetachFails(db: Db, host: Host, actor: Actor, network: Id, container: Id, acted: bool)
    requires TablesOk(db) && Answered(db, host, RemoveMember(actor, network, container, true)).answer == Success
    ensures exists id ::
              && id in db.members && db.members[id].network == network && db.members[id].container == container
              && container in db.containers
              && Perform(db, host, RemoveMember(actor, network, container, true), FailingAt(4, acted)) ==
                 Final(db.(members := db.members[id := db.members[id].(state := MemberState.Failed)]),
                       if acted then host.(nics := host.nics - {(db.containers[container], db.members[id].slot)}) else host,
                       ProxmoxError)
  {
    hide Finish, TablesOk, Pick, RowsOf;
    var replies := FailingAt(4, acted);
    RemoveAnswer(db, host, actor, network, container, true);
    var found := RowsOf(db.members, network, container);
    var some :| some in db.members && db.members[some].network == network && db.members[some].container == container;
    RowBelongs(db.members, network, container, some);
    var id := Pick(found);
    RowBelongs(db.members, network, container, id);
    MemberHasContainer(db, id);
    Advance(db, host, Remove(LoadFor(actor, network, container, true)), replies, 0);
    Advance(db, host, Remove(FindMember(network, container)), replies, 1);
    DetachingFails(db, host, id, acted);
  }

  lemma DetachingFails(db: Db, host: Host, id: Id, acted: bool)
    requires id in db.members && db.members[id].container in db.containers
    ensures var row := db.members[id];
            Finish(db, host, Continue(Remove(FindContainer(id, row))), FailingAt(4, acted), 2) ==
            Final(db.(members := db.members[id := row.(state := MemberState.Failed)]),
                  if acted then host.(nics := host.nics - {(db.containers[row.container], row.slot)}) else host, ProxmoxError)
  {
    hide Finish, Step;
    var row, replies := db.members[id], FailingAt(4, acted);
    var ctid := db.containers[row.container];
    Advance(db, host, Remove(FindContainer(id, row)), replies, 2);
    Advance(db, host, Remove(MarkDetaching(id, row, ctid)), replies, 3);
    DetachingSteps(db, host, id);
    UnplugFails(SetMemberState(db, id, Detaching), host, id, row, ctid, acted);
    assert db.members[id := row.(state := Detaching)][id := row.(state := MemberState.Failed)]
           == db.members[id := row.(state := MemberState.Failed)];
  }

  lemma UnplugFails(db: Db, host: Host, id: Id, row: Member, ctid: int, acted: bool)
    requires id in db.members
    ensures Finish(db, host, Continue(Remove(Detach(id, row, ctid))), FailingAt(4, acted), 4) ==
            Final(db.(members := db.members[id := db.members[id].(state := MemberState.Failed)]),
                  if acted then host.(nics := host.nics - {(ctid, row.slot)}) else host, ProxmoxError)
  {
    hide Finish, Step;
    var replies := FailingAt(4, acted);
    var after := if acted then host.(nics := host.nics - {(ctid, row.slot)}) else host;
    Advance(db, host, Remove(Detach(id, row, ctid)), replies, 4);
    Advance(db, after, Remove(MarkDetachFailed(id)), replies, 5);
    UnplugSteps(db, host, id, row, ctid, acted);
    UnplugSteps(db, after, id, row, ctid, acted);
  }

  lemma DetachingSteps(db: Db, host: Host, id: Id)
    requires id in db.members && db.members[id].container in db.containers
    ensures var row := db.members[id];
            var ctid := db.containers[row.container];
            && Step(db, host, Remove(FindContainer(id, row)), Done) == Outcome(db, host, Continue(Remove(MarkDetaching(id, row, ctid))))
            && Step(db, host, Remove(MarkDetaching(id, row, ctid)), Done) ==
               Outcome(SetMemberState(db, id, Detaching), host, Continue(Remove(Detach(id, row, ctid))))
  {
  }

  lemma UnplugSteps(db: Db, host: Host, id: Id, row: Member, ctid: int, acted: bool)
    ensures Step(db, host, Remove(Detach(id, row, ctid)), Fail(acted)) ==
            Outcome(db, if acted then host.(nics := host.nics - {(ctid, row.slot)}) else host, Continue(Remove(MarkDetachFailed(id))))
    ensures Step(db, host, Remove(MarkDetachFailed(id)), Done) ==
            Outcome(SetMemberState(db, id, MemberState.Failed), host, Return(ProxmoxError))
  {
  }

  lemma RowBelongs(members: Members, network: Id, container: Id, id: Id)
    ensures id in RowsOf(members, network, container) <==>
            id in members && members[id].network == network && members[id].container == container
  {
  }
}
