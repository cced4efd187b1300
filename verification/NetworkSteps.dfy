/** Each network operation as the sequence of its awaits; one step per await. */
module NetworkSteps {
  import opened Basics
  import opened Ipv4
  import opened Addressing
  import opened NetworkTables

  datatype Actor = Actor(user: Id, admin: bool)

  datatype Answer =
    | Success | Internal | Validation | NodeLimit | UserLimit | Overlaps | NotFound | Forbidden
    | HasMembers | NotActive | AlreadyMember | Exhausted | NoSlot | ProxmoxError

  /** `mayUse` is the outcome of the container permission check. */
  datatype Request =
    | CreateNetwork(actor: Actor, nameOk: bool, cidr: Option<Net>)
    | DeleteNetwork(actor: Actor, network: Id)
    | AddMember(actor: Actor, network: Id, container: Id, mayUse: bool)
    | RemoveMember(actor: Actor, network: Id, container: Id, mayUse: bool)

  datatype CreateProc =
    | CountNode(owner: Id, cidr: Net)
    | CountUser(owner: Id, cidr: Net)
    | ListOwn(owner: Id, cidr: Net)
    | DrawBridge(owner: Id, cidr: Net)
    | InsertRow(owner: Id, cidr: Net, bridge: int)
    | MakeBridge(network: Id, bridge: int)
    | Activate(network: Id)

  datatype DeleteProc =
    | Load(actor: Actor, network: Id)
    | CheckEmpty(network: Id, bridge: int)
    | MarkDeleting(network: Id, bridge: int)
    | RemoveBridge(network: Id, bridge: int)
    | DropRow(network: Id)

  /** What `add_member` remembers of the network it loaded. */
  datatype Loaded = Loaded(network: Id, cidr: Net, bridge: int, container: Id)

  datatype AddProc =
    | LoadNetwork(actor: Actor, network: Id, container: Id, mayUse: bool)
    | LoadContainer(net: Loaded)
    | CheckNotMember(net: Loaded, ctid: int)
    | ReadIps(net: Loaded, ctid: int)
    | ReadSlots(net: Loaded, ctid: int, ip: Address)
    | InsertMembership(net: Loaded, ctid: int, ip: Address, slot: nat)
    | Attach(member: Id, ctid: int, slot: nat, bridge: int)
    | MarkAttachFailed(member: Id)
    | MarkActive(member: Id)

  datatype RemoveProc =
    | LoadFor(actor: Actor, network: Id, container: Id, mayUse: bool)
    | FindMember(network: Id, container: Id)
    | FindContainer(member: Id, row: Member)
    | MarkDetaching(member: Id, row: Member, ctid: int)
    | Detach(member: Id, row: Member, ctid: int)
    | MarkDetachFailed(member: Id)
    | DropMembership(network: Id, container: Id)

  datatype Proc = Create(c: CreateProc) | Delete(d: DeleteProc) | Add(a: AddProc) | Remove(r: RemoveProc)

  datatype Next = Continue(p: Proc) | Return(answer: Answer)

  datatype Outcome = Outcome(db: Db, host: Host, next: Next)

  /** Checks made before the first await. */
  function Start(req: Request): Next {
    match req
    case CreateNetwork(actor, nameOk, cidr) =>
      if !nameOk || ValidateCidr(cidr).Err? then Return(Validation)
      else Continue(Create(CountNode(actor.user, cidr.value)))
    case DeleteNetwork(actor, network) => Continue(Delete(Load(actor, network)))
    case AddMember(actor, network, container, mayUse) => Continue(Add(LoadNetwork(actor, network, container, mayUse)))
    case RemoveMember(actor, network, container, mayUse) => Continue(Remove(LoadFor(actor, network, container, mayUse)))
  }

  predicate Owns(actor: Actor, n: Network) { actor.admin || actor.user == n.owner }

  predicate OverlapsOwn(networks: Networks, owner: Id, cidr: Net) {
    exists id :: id in networks && networks[id].owner == owner &&
      (cidr.Contains(networks[id].cidr.Network()) || networks[id].cidr.Contains(cidr.Network()))
  }

  /** The used addresses, read back from the stored texts. */
  function UsedIn(members: Members, network: Id): set<nat> {
    set ip | ip in UsedIps(members, network) && ParseAddress(ip).Some? :: ParseAddress(ip).value
  }

  function RowsOf(members: Members, network: Id, container: Id): set<Id> {
    set id | id in MembersOf(members, network) && members[id].container == container
  }

  ghost function Step(db: Db, host: Host, p: Proc, reply: Reply): Outcome {
    match p
    case Create(c) => StepCreate(db, host, c, reply)
    case Delete(d) => StepDelete(db, host, d, reply)
    case Add(a) => StepAdd(db, host, a, reply)
    case Remove(r) => StepRemove(db, host, r, reply)
  }

  function StepCreate(db: Db, host: Host, c: CreateProc, reply: Reply): Outcome {
    if reply == Fail(false) then Outcome(db, host, Return(if c.MakeBridge? then ProxmoxError else Internal)) else
    match c
    case CountNode(owner, cidr) =>
      Outcome(db, host,
        if reply.Fail? then Return(Internal)
        else if |Live(db.networks)| >= MAX_NETWORKS_PER_NODE then Return(NodeLimit) else Continue(Create(CountUser(owner, cidr))))
    case CountUser(owner, cidr) =>
      Outcome(db, host,
        if reply.Fail? then Return(Internal)
        else if |LiveOf(db.networks, owner)| >= MAX_NETWORKS_PER_USER then Return(UserLimit) else Continue(Create(ListOwn(owner, cidr))))
    case ListOwn(owner, cidr) =>
      Outcome(db, host,
        if reply.Fail? then Return(Internal)
        else if OverlapsOwn(db.networks, owner, cidr) then Return(Overlaps) else Continue(Create(DrawBridge(owner, cidr))))
    case DrawBridge(owner, cidr) =>
      Outcome(db.(nextBridge := db.nextBridge + 1), host,
        if reply.Fail? then Return(Internal) else Continue(Create(InsertRow(owner, cidr, AsI32(db.nextBridge)))))
    case InsertRow(owner, cidr, bridge) =>
      (match InsertNetwork(db, Network(owner, bridge, cidr, Creating))
       case None => Outcome(db, host, Return(Internal))
       case Some(after) =>
         Outcome(after, host, if reply.Fail? then Return(Internal) else Continue(Create(MakeBridge(db.issued, bridge)))))
    case MakeBridge(network, bridge) =>
      Outcome(db, host.(bridges := host.bridges + {bridge}),
        if reply.Fail? then Return(ProxmoxError) else Continue(Create(Activate(network))))
    case Activate(network) =>
      Outcome(SetNetworkState(db, network, NetworkState.Active), host, Return(if reply.Fail? then Internal else Success))
  }

  function StepDelete(db: Db, host: Host, d: DeleteProc, reply: Reply): Outcome {
    if reply == Fail(false) then Outcome(db, host, Return(if d.RemoveBridge? then ProxmoxError else Internal)) else
    match d
    case Load(actor, network) =>
      Outcome(db, host,
        if reply.Fail? then Return(Internal)
        else if network !in db.networks then Return(NotFound)
        else if !Owns(actor, db.networks[network]) then Return(Forbidden)
        else Continue(Delete(CheckEmpty(network, db.networks[network].bridge))))
    case CheckEmpty(network, bridge) =>
      Outcome(db, host,
        if reply.Fail? then Return(Internal)
        else if MembersOf(db.members, network) != {} then Return(HasMembers)
        else Continue(Delete(MarkDeleting(network, bridge))))
    case MarkDeleting(network, bridge) =>
      Outcome(SetNetworkState(db, network, NetworkState.Deleting), host,
        if reply.Fail? then Return(Internal) else Continue(Delete(RemoveBridge(network, bridge))))
    case RemoveBridge(network, bridge) =>
      Outcome(db, host.(bridges := host.bridges - {bridge}),
        if reply.Fail? then Return(ProxmoxError) else Continue(Delete(DropRow(network))))
    case DropRow(network) =>
      (match DeleteNetworkRow(db, network)
       case None => Outcome(db, host, Return(Internal))
       case Some(after) => Outcome(after, host, Return(if reply.Fail? then Internal else Success)))
  }

  function StepAdd(db: Db, host: Host, a: AddProc, reply: Reply): Outcome {
    if reply == Fail(false) then
      Outcome(db, host,
        if a.Attach? then Continue(Add(MarkAttachFailed(a.member)))
        else Return(if a.MarkAttachFailed? then ProxmoxError else Internal))
    else
    match a
    case LoadNetwork(actor, network, container, mayUse) =>
      Outcome(db, host,
        if reply.Fail? then Return(Internal)
        else if network !in db.networks then Return(NotFound)
        else if !Owns(actor, db.networks[network]) then Return(Forbidden)
        else if db.networks[network].state != NetworkState.Active then Return(NotActive)
        else if !mayUse then Return(Forbidden)
        else Continue(Add(LoadContainer(Loaded(network, db.networks[network].cidr, db.networks[network].bridge, container)))))
    case LoadContainer(net) =>
      Outcome(db, host,
        if reply.Fail? then Return(Internal)
        else if net.container !in db.containers then Return(NotFound)
        else Continue(Add(CheckNotMember(net, db.containers[net.container]))))
    case CheckNotMember(net, ctid) =>
      Outcome(db, host,
        if reply.Fail? then Return(Internal)
        else if exists id :: id in MembersOf(db.members, net.network) && db.members[id].container == net.container
        then Return(AlreadyMember)
        else Continue(Add(ReadIps(net, ctid))))
    case ReadIps(net, ctid) =>
      Outcome(db, host,
        if reply.Fail? then Return(Internal)
        else match LowestFreeAddress(net.cidr, UsedIn(db.members, net.network))
          case None => Return(Exhausted)
          case Some(ip) => Continue(Add(ReadSlots(net, ctid, ip))))
    case ReadSlots(net, ctid, ip) =>
      Outcome(db, host,
        if reply.Fail? then Return(Internal)
        else match LowestFree(1, MAX_SLOT, UsedSlots(db.members, net.container))
          case None => Return(NoSlot)
          case Some(slot) => Continue(Add(InsertMembership(net, ctid, ip, slot))))
    case InsertMembership(net, ctid, ip, slot) =>
      (match InsertMember(db, Member(net.network, net.container, PrintAddress(ip), slot, Attaching))
       case None => Outcome(db, host, Return(Internal))
       case Some(after) =>
         Outcome(after, host, if reply.Fail? then Return(Internal) else Continue(Add(Attach(db.issued, ctid, slot, net.bridge)))))
    case Attach(member, ctid, slot, bridge) =>
      Outcome(db, host.(nics := host.nics[(ctid, slot) := bridge]),
        Continue(Add(if reply.Fail? then MarkAttachFailed(member) else MarkActive(member))))
    case MarkAttachFailed(member) =>
      Outcome(SetMemberState(db, member, MemberState.Failed), host, Return(ProxmoxError))
    case MarkActive(member) =>
      Outcome(SetMemberState(db, member, MemberState.Active), host, Return(if reply.Fail? then Internal else Success))
  }

  ghost function StepRemove(db: Db, host: Host, r: RemoveProc, reply: Reply): Outcome {
    if reply == Fail(false) then
      Outcome(db, host,
        if r.Detach? then Continue(Remove(MarkDetachFailed(r.member)))
        else Return(if r.MarkDetachFailed? then ProxmoxError else Internal))
    else
    match r
    case LoadFor(actor, network, container, mayUse) =>
      Outcome(db, host,
        if reply.Fail? then Return(Internal)
        else if network !in db.networks then Return(NotFound)
        else if !Owns(actor, db.networks[network]) || !mayUse then Return(Forbidden)
        else Continue(Remove(FindMember(network, container))))
    case FindMember(network, container) =>
      var found := RowsOf(db.members, network, container);
      Outcome(db, host,
        if reply.Fail? then Return(Internal)
        else if found == {} then Return(NotFound)
        else var id := Pick(found); Continue(Remove(FindContainer(id, db.members[id]))))
    case FindContainer(member, row) =>
      Outcome(db, host,
        if reply.Fail? then Return(Internal)
        else if row.container !in db.containers then Return(NotFound)
        else Continue(Remove(MarkDetaching(member, row, db.containers[row.container]))))
    case MarkDetaching(member, row, ctid) =>
      Outcome(SetMemberState(db, member, Detaching), host,
        if reply.Fail? then Return(Internal) else Continue(Remove(Detach(member, row, ctid))))
    case Detach(member, row, ctid) =>
      Outcome(db, host.(nics := host.nics - {(ctid, row.slot)}),
        Continue(Remove(if reply.Fail? then MarkDetachFailed(member) else DropMembership(row.network, row.container))))
    case MarkDetachFailed(member) =>
      Outcome(SetMemberState(db, member, MemberState.Failed), host, Return(ProxmoxError))
    case DropMembership(network, container) =>
      Outcome(DeleteMemberRow(db, network, container), host, Return(if reply.Fail? then Internal else Success))
  }

  /** One id of a nonempty set; here the unique key makes the set a singleton. */
  ghost function Pick(s: set<Id>): (id: Id)
    requires s != {}
    ensures id in s
  {
    var id :| id in s; id
  }
}
