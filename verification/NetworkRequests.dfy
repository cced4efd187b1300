/** A whole request run alone against scripted replies: what each answer means and what the operations undo. */
module NetworkRequests {
  import opened Basics
  import opened Ipv4
  import opened Addressing
  import opened NetworkTables
  import opened NetworkSteps
  import opened NetworkInterleaved
  import opened NetworkConsistency

  /** Awaits left at most. */
  ghost function Rank(p: Proc): nat {
    match p
    case Create(c) =>
      (match c
       case CountNode(_, _) => 7
       case CountUser(_, _) => 6
       case ListOwn(_, _) => 5
       case DrawBridge(_, _) => 4
       case InsertRow(_, _, _) => 3
       case MakeBridge(_, _) => 2
       case Activate(_) => 1)
    case Delete(d) =>
      (match d
       case Load(_, _) => 5
       case CheckEmpty(_, _) => 4
       case MarkDeleting(_, _) => 3
       case RemoveBridge(_, _) => 2
       case DropRow(_) => 1)
    case Add(a) =>
      (match a
       case LoadNetwork(_, _, _, _) => 8
       case LoadContainer(_) => 7
       case CheckNotMember(_, _) => 6
       case ReadIps(_, _) => 5
       case ReadSlots(_, _, _) => 4
       case InsertMembership(_, _, _, _) => 3
       case Attach(_, _, _, _) => 2
       case MarkAttachFailed(_) => 1
       case MarkActive(_) => 1)
    case Remove(r) =>
      (match r
       case LoadFor(_, _, _, _) => 6
       case FindMember(_, _) => 5
       case FindContainer(_, _) => 4
       case MarkDetaching(_, _, _) => 3
       case Detach(_, _, _) => 2
       case MarkDetachFailed(_) => 1
       case DropMembership(_, _) => 1)
  }

  lemma RankFalls(db: Db, host: Host, p: Proc, reply: Reply)
    ensures var o := Step(db, host, p, reply); o.next.Continue? ==> Rank(o.next.p) < Rank(p)
  {
    hide LowestFreeAddress, OverlapsOwn, MembersOf, Live, LiveOf, Pick;
  }

  datatype Final = Final(db: Db, host: Host, answer: Answer)

  /** The request from `next` on, when the k-th await from here gets `replies(k)`. */
  ghost function Finish(db: Db, host: Host, next: Next, replies: nat -> Reply, k: nat): Final
    decreases if next.Continue? then Rank(next.p) else 0
  {
    match next
    case Return(answer) => Final(db, host, answer)
    case Continue(p) =>
      RankFalls(db, host, p, replies(k));
      hide Step, Rank;
      var o := Step(db, host, p, replies(k));
      Finish(o.db, o.host, o.next, replies, k + 1)
  }

  ghost function Perform(db: Db, host: Host, req: Request, replies: nat -> Reply): Final {
    Finish(db, host, Start(req), replies, 0)
  }

  /** One await of a request run alone. */
  lemma Advance(db: Db, host: Host, p: Proc, replies: nat -> Reply, k: nat)
    ensures var o := Step(db, host, p, replies(k));
            Finish(db, host, Continue(p), replies, k) ==
            if o.next.Return? then Final(o.db, o.host, o.next.answer) else Finish(o.db, o.host, o.next, replies, k + 1)
  {
    hide Step;
  }

  lemma Returned(db: Db, host: Host, answer: Answer, replies: nat -> Reply, k: nat)
    ensures Finish(db, host, Return(answer), replies, k) == Final(db, host, answer)
  {
  }

  /** A request run alone keeps the tables and the host consistent, wherever it stops. */
  lemma {:induction false} FinishKeepsConsistent(db: Db, host: Host, next: Next, replies: nat -> Reply, k: nat)
    requires Consistent(db, host) && (next.Continue? ==> Ready(db, host, next.p))
    ensures var f := Finish(db, host, next, replies, k); Consistent(f.db, f.host)
    decreases if next.Continue? then Rank(next.p) else 0
  {
    hide Consistent, Ready, Step, Rank, Finish;
    match next
    case Return(answer) => Returned(db, host, answer, replies, k);
    case Continue(p) =>
      AloneStep(db, host, p, replies(k));
      RankFalls(db, host, p, replies(k));
      Advance(db, host, p, replies, k);
      var o := Step(db, host, p, replies(k));
      if o.next.Continue? { FinishKeepsConsistent(o.db, o.host, o.next, replies, k + 1); }
  }

  lemma PerformKeepsConsistent(db: Db, host: Host, req: Request, replies: nat -> Reply)
    requires Consistent(db, host)
    ensures var f := Perform(db, host, req, replies); Consistent(f.db, f.host)
  {
    hide Consistent;
    FinishKeepsConsistent(db, host, Start(req), replies, 0);
  }

  /** A request run alone keeps the tables' own constraints, also where the host does not match them. */
  lemma {:induction false} FinishKeepsTables(db: Db, host: Host, next: Next, replies: nat -> Reply, k: nat)
    requires TablesOk(db) && (next.Continue? ==> StaleOk(db, next.p))
    ensures TablesOk(Finish(db, host, next, replies, k).db)
    decreases if next.Continue? then Rank(next.p) else 0
  {
    hide TablesOk, StaleOk, Step, Rank, Finish;
    match next
    case Return(answer) => Returned(db, host, answer, replies, k);
    case Continue(p) =>
      StepKeepsTables(db, host, p, replies(k));
      RankFalls(db, host, p, replies(k));
      Advance(db, host, p, replies, k);
      var o := Step(db, host, p, replies(k));
      if o.next.Continue? { FinishKeepsTables(o.db, o.host, o.next, replies, k + 1); }
  }

  lemma PerformKeepsTables(db: Db, host: Host, req: Request, replies: nat -> Reply)
    requires TablesOk(db)
    ensures TablesOk(Perform(db, host, req, replies).db)
  {
    hide TablesOk, StaleOk, Start, Finish;
    StartOk(db, req);
    FinishKeepsTables(db, host, Start(req), replies, 0);
  }

  // --- What success means ---------------------------------------------------------------

  ghost predicate LastAwait(p: Proc) {
    (p.Create? && p.c.Activate?) || (p.Delete? && p.d.DropRow?)
    || (p.Add? && (p.a.MarkActive? || p.a.MarkAttachFailed?)) || (p.Remove? && (p.r.DropMembership? || p.r.MarkDetachFailed?))
  }

  /** On the way to success every await goes through and the request continues. */
  lemma Onwards(db: Db, host: Host, p: Proc, replies: nat -> Reply, k: nat) returns (o: Outcome)
    requires Finish(db, host, Continue(p), replies, k).answer == Success
    ensures o == Step(db, host, p, replies(k)) && replies(k) == Done
    ensures LastAwait(p) ==> o.next == Return(Success) && Finish(db, host, Continue(p), replies, k) == Final(o.db, o.host, Success)
    ensures !LastAwait(p) ==> o.next.Continue?
    ensures Finish(db, host, Continue(p), replies, k) == Finish(o.db, o.host, o.next, replies, k + 1)
  {
    hide LowestFreeAddress, OverlapsOwn, Finish, Pick;
    o := Step(db, host, p, replies(k));
    Advance(db, host, p, replies, k);
    if o.next.Return? { Returned(o.db, o.host, o.next.answer, replies, k + 1); }
    if o.next.Continue? && MarksFailure(o.next.p) {
      FailureMarked(o.db, o.host, o.next.p, replies, k + 1);
    }
  }

  ghost predicate MarksFailure(p: Proc) {
    (p.Add? && p.a.MarkAttachFailed?) || (p.Remove? && p.r.MarkDetachFailed?)
  }

  lemma FailureMarked(db: Db, host: Host, p: Proc, replies: nat -> Reply, k: nat)
    requires MarksFailure(p)
    ensures Finish(db, host, Continue(p), replies, k).answer == ProxmoxError
  {
  }

  ghost predicate Created(db: Db, host: Host, owner: Id, cidr: Net, f: Final) {
    var bridge := AsI32(db.nextBridge);
    && f.db == db.(networks := db.networks[db.issued := Network(owner, bridge, cidr, NetworkState.Active)],
                   nextBridge := db.nextBridge + 1, issued := db.issued + 1)
    && f.host == host.(bridges := host.bridges + {bridge})
  }

  /** A successful create adds exactly one active network with its bridge and changes nothing else. */
  lemma CreateSucceeds(db: Db, host: Host, req: Request, replies: nat -> Reply)
    requires req.CreateNetwork? && Perform(db, host, req, replies).answer == Success
    ensures req.cidr.Some? && Created(db, host, req.actor.user, req.cidr.value, Perform(db, host, req, replies))
    ensures !OverlapsOwn(db.networks, req.actor.user, req.cidr.value) && HasRoom(db.networks, req.actor.user)
  {
    hide OverlapsOwn, ValidateCidr, Finish, AcceptedCidr;
    StartSucceeds(db, host, req, replies);
    var o := Onwards(db, host, Start(req).p, replies, 0);
    o := Onwards(db, host, o.next.p, replies, 1);
    o := Onwards(db, host, o.next.p, replies, 2);
    o := Onwards(db, host, o.next.p, replies, 3);
    o := Onwards(o.db, host, o.next.p, replies, 4);
    o := Onwards(o.db, host, o.next.p, replies, 5);
    o := Onwards(o.db, o.host, o.next.p, replies, 6);
  }

  lemma StartSucceeds(db: Db, host: Host, req: Request, replies: nat -> Reply)
    requires Perform(db, host, req, replies).answer == Success
    ensures Start(req).Continue? && (req.CreateNetwork? ==> req.cidr.Some? && AcceptedCidr(req.cidr.value))
  {
  }

  ghost predicate Deleted(db: Db, host: Host, id: Id, f: Final) {
    && id in db.networks && MembersOf(db.members, id) == {}
    && f.db == db.(networks := db.networks - {id})
    && f.host == host.(bridges := host.bridges - {db.networks[id].bridge})
  }

  /** A successful delete removes exactly that network, which had no members, and its bridge. */
  lemma DeleteSucceeds(db: Db, host: Host, req: Request, replies: nat -> Reply)
    requires req.DeleteNetwork? && Perform(db, host, req, replies).answer == Success
    ensures Deleted(db, host, req.network, Perform(db, host, req, replies))
    ensures req.actor.admin || req.actor.user == db.networks[req.network].owner
  {
    hide Finish;
    var o := Onwards(db, host, Start(req).p, replies, 0);
    o := Onwards(db, host, o.next.p, replies, 1);
    o := Onwards(db, host, o.next.p, replies, 2);
    o := Onwards(o.db, host, o.next.p, replies, 3);
    o := Onwards(o.db, o.host, o.next.p, replies, 4);
    assert o.db.networks == db.networks - {req.network};
  }

  ghost predicate Joined(db: Db, host: Host, network: Id, container: Id, f: Final) {
    && network in db.networks && db.networks[network].state == NetworkState.Active && container in db.containers
    && var ip := LowestFreeAddress(db.networks[network].cidr, UsedIn(db.members, network));
       var slot := LowestFree(1, MAX_SLOT, UsedSlots(db.members, container));
       && ip.Some? && slot.Some?
       && f.db == db.(members := db.members[db.issued :=
                        Member(network, container, PrintAddress(ip.value), slot.value, MemberState.Active)],
                      issued := db.issued + 1)
       && f.host == host.(nics := host.nics[(db.containers[container], slot.value) := db.networks[network].bridge])
  }

  /** A successful add gives the container the lowest free address and slot, and plugs in that one NIC. */
  lemma AddSucceeds(db: Db, host: Host, req: Request, replies: nat -> Reply)
    requires req.AddMember? && Perform(db, host, req, replies).answer == Success
    ensures Joined(db, host, req.network, req.container, Perform(db, host, req, replies))
    ensures req.mayUse && (req.actor.admin || req.actor.user == db.networks[req.network].owner)
    ensures forall id :: id in db.members && db.members[id].network == req.network ==> db.members[id].container != req.container
  {
    hide Finish, LowestFreeAddress, PrintAddress, LowestFree, UsedIn, UsedSlots, SetNetworkState, Clash;
    var o := Onwards(db, host, Start(req).p, replies, 0);
    o := Onwards(db, host, o.next.p, replies, 1);
    o := Onwards(db, host, o.next.p, replies, 2);
    assert forall id :: id in db.members && db.members[id].network == req.network ==> id in MembersOf(db.members, req.network);
    hide MembersOf;
    o := Onwards(db, host, o.next.p, replies, 3);
    o := Onwards(db, host, o.next.p, replies, 4);
    o := Onwards(db, host, o.next.p, replies, 5);
    o := Onwards(o.db, host, o.next.p, replies, 6);
    o := Onwards(o.db, o.host, o.next.p, replies, 7);
  }

  ghost predicate Left(db: Db, host: Host, id: Id, f: Final) {
    && id in db.members && db.members[id].container in db.containers
    && f.db == db.(members := db.members - {id})
    && f.host == host.(nics := host.nics - {SlotKey(db.containers, db.members[id])})
  }

  /**
   * A successful remove deletes exactly the container's row in that network and unplugs exactly its NIC, for an admin or the
   * network's owner with permission on the container.
   */
  lemma RemoveSucceeds(db: Db, host: Host, req: Request, replies: nat -> Reply, id: Id)
    requires TablesOk(db) && req.RemoveMember? && Perform(db, host, req, replies).answer == Success
    requires id in db.members && db.members[id].network == req.network && db.members[id].container == req.container
    ensures Left(db, host, id, Perform(db, host, req, replies))
    ensures req.mayUse && req.network in db.networks
    ensures req.actor.admin || req.actor.user == db.networks[req.network].owner
  {
    hide Finish, TablesOk;
    var o := Onwards(db, host, Start(req).p, replies, 0);
    o := Onwards(db, host, o.next.p, replies, 1);
    OneRow(db, o.next.p.r.member, id);
    o := Onwards(db, host, o.next.p, replies, 2);
    o := Onwards(db, host, o.next.p, replies, 3);
    o := Onwards(o.db, host, o.next.p, replies, 4);
    o := Onwards(o.db, o.host, o.next.p, replies, 5);
    forall other | other in db.members && other != id
      ensures other in o.db.members
    {
      if db.members[other].network == req.network && db.members[other].container == req.container { OneRow(db, other, id); }
    }
    assert o.db.members == db.members - {id};
  }

  /** A container has at most one row in a network. */
  lemma OneRow(db: Db, i: Id, j: Id)
    requires TablesOk(db) && i in db.members && j in db.members
    requires db.members[i].network == db.members[j].network && db.members[i].container == db.members[j].container
    ensures i == j
  {
    hide NetworksOk, ContainersOk, MembersOk;
    assert Clash(db.members[i], db.members[j]);
  }

  // --- What one call undoes --------------------------------------------------------------

  /** Deleting a network right after creating it leaves rows and host as they were; only a bridge number and an id are spent. */
  lemma DeleteUndoesCreate(db: Db, host: Host, create: Request, r1: nat -> Reply, delete: Request, r2: nat -> Reply)
    requires Consistent(db, host)
    requires create.CreateNetwork? && Perform(db, host, create, r1).answer == Success
    requires delete == DeleteNetwork(create.actor, db.issued)
    requires var f := Perform(db, host, create, r1); Perform(f.db, f.host, delete, r2).answer == Success
    ensures var f := Perform(db, host, create, r1); var g := Perform(f.db, f.host, delete, r2);
            && g.db == db.(nextBridge := db.nextBridge + 1, issued := db.issued + 1)
            && g.host == host
  {
    hide Perform, AddressInRange, AcceptedCidr, Overlap;
    CreateSucceeds(db, host, create, r1);
    var f := Perform(db, host, create, r1);
    PerformKeepsConsistent(db, host, create, r1);
    DeleteSucceeds(f.db, f.host, delete, r2);
    var g := Perform(f.db, f.host, delete, r2);
    assert g.db.networks == db.networks;
    FreshBridge(db, host, f.db, AsI32(db.nextBridge));
    assert g.host.bridges == host.bridges;
  }

  /** A bridge number accepted for a new row was not on the host. */
  lemma FreshBridge(db: Db, host: Host, after: Db, bridge: int)
    requires Consistent(db, host) && TablesOk(after)
    requires db.issued in after.networks && after.networks[db.issued].bridge == bridge
    requires forall id :: id in db.networks ==> id in after.networks && after.networks[id] == db.networks[id]
    ensures bridge !in host.bridges
  {
    hide AddressInRange, AcceptedCidr, Overlap;
  }

  /** Removing a container right after adding it frees its address and slot and leaves rows and host as they were. */
  lemma RemoveUndoesAdd(db: Db, host: Host, add: Request, r1: nat -> Reply, remove: Request, r2: nat -> Reply)
    requires Consistent(db, host)
    requires add.AddMember? && Perform(db, host, add, r1).answer == Success
    requires remove == RemoveMember(add.actor, add.network, add.container, add.mayUse)
    requires var f := Perform(db, host, add, r1); Perform(f.db, f.host, remove, r2).answer == Success
    ensures var f := Perform(db, host, add, r1); var g := Perform(f.db, f.host, remove, r2);
            && g.db == db.(issued := db.issued + 1)
            && g.host == host
  {
    hide Perform, TablesOk, HostMatches, OwnersDisjoint, WithinLimits, LowestFreeAddress, PrintAddress, UsedIn;
    hide UsedSlots;
    AddSucceeds(db, host, add, r1);
    var f := Perform(db, host, add, r1);
    PerformKeepsConsistent(db, host, add, r1);
    RemoveSucceeds(f.db, f.host, remove, r2, db.issued);
    var g := Perform(f.db, f.host, remove, r2);
    FreshMember(db);
    assert g.db.members == db.members;
    var key := SlotKey(f.db.containers, f.db.members[db.issued]);
    FreeSlotIsEmpty(db, host, add.container, key.1);
    assert g.host.nics == host.nics;
  }

  lemma FreshMember(db: Db)
    requires TablesOk(db)
    ensures db.issued !in db.members
  {
  }

  /** A slot no row of the container uses has no NIC on the host. */
  lemma FreeSlotIsEmpty(db: Db, host: Host, container: Id, slot: nat)
    requires Consistent(db, host) && container in db.containers && slot !in UsedSlots(db.members, container)
    ensures (db.containers[container], slot) !in host.nics
  {
    hide AddressInRange, AcceptedCidr, Overlap;
    var key := (db.containers[container], slot);
    assert forall id :: id in db.members && db.members[id].container == container ==>
      db.members[id].slot in UsedSlots(db.members, container);
  }
}
