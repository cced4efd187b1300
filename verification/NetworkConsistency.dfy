/** What ties the network tables to the host and what limits them, kept by each await of a request run alone. */
module NetworkConsistency {
  import opened Basics
  import opened Ipv4
  import opened Addressing
  import opened NetworkTables
  import opened NetworkSteps
  import opened NetworkInterleaved

  type Nics = map<(int, nat), int>

  // --- The invariants ------------------------------------------------

  /** The NIC slot a membership stands for on the host. */
  ghost function SlotKey(containers: Containers, m: Member): (int, nat)
    requires m.container in containers
  {
    (containers[m.container], m.slot)
  }

  /** Row `m` stands for slot `key` on bridge `bridge`. */
  ghost predicate StandsFor(networks: Networks, containers: Containers, m: Member, key: (int, nat), bridge: int) {
    && m.container in containers && m.network in networks
    && SlotKey(containers, m) == key && networks[m.network].bridge == bridge
  }

  ghost predicate HasRow(db: Db, key: (int, nat), bridge: int) {
    exists id :: id in db.members && StandsFor(db.networks, db.containers, db.members[id], key, bridge)
  }

  ghost predicate BridgeHasRow(networks: Networks, bridge: int) {
    exists id :: id in networks && networks[id].bridge == bridge
  }

  /** A bridge on the host has its row. */
  ghost predicate BridgesHaveRows(networks: Networks, bridges: set<int>) {
    forall b :: b in bridges ==> BridgeHasRow(networks, b)
  }

  /** An active network has its bridge. */
  ghost predicate ActiveHaveBridges(networks: Networks, bridges: set<int>) {
    forall id :: id in networks && networks[id].state == NetworkState.Active ==> networks[id].bridge in bridges
  }

  /** An occupied NIC slot has its membership row. */
  ghost predicate NicsHaveRows(db: Db, nics: Nics) {
    forall key :: key in nics ==> HasRow(db, key, nics[key])
  }

  /** An active membership has its NIC. */
  ghost predicate ActiveHaveNics(members: Members, containers: Containers, nics: Nics) {
    forall id :: id in members && members[id].state == MemberState.Active ==>
      members[id].container in containers && SlotKey(containers, members[id]) in nics
  }

  /** A network with members is active. */
  ghost predicate MembersAreLive(networks: Networks, members: Members) {
    forall id :: id in members ==>
      members[id].network in networks && networks[members[id].network].state == NetworkState.Active
  }

  ghost predicate HostMatches(db: Db, host: Host) {
    && BridgesHaveRows(db.networks, host.bridges)
    && ActiveHaveBridges(db.networks, host.bridges)
    && NicsHaveRows(db, host.nics)
    && ActiveHaveNics(db.members, db.containers, host.nics)
    && MembersAreLive(db.networks, db.members)
  }

  /** The blocks of one owner are pairwise disjoint, whatever the state of the networks. */
  ghost predicate OwnersDisjoint(networks: Networks) {
    forall i, j :: i in networks && j in networks && i != j && networks[i].owner == networks[j].owner ==>
      !Overlap(networks[i].cidr, networks[j].cidr)
  }

  ghost predicate WithinLimits(networks: Networks) {
    |Live(networks)| <= MAX_NETWORKS_PER_NODE && forall owner :: |LiveOf(networks, owner)| <= MAX_NETWORKS_PER_USER
  }

  ghost predicate Consistent(db: Db, host: Host) {
    TablesOk(db) && HostMatches(db, host) && OwnersDisjoint(db.networks) && WithinLimits(db.networks)
  }

  // --- What a request in flight relies on ------------------------------------------------

  ghost predicate CreateReady(networks: Networks, bridges: set<int>, c: CreateProc) {
    match c
    case MakeBridge(network, bridge) =>
      network in networks && networks[network].bridge == bridge && networks[network].state == Creating
    case Activate(network) =>
      network in networks && networks[network].bridge in bridges && networks[network].state == Creating
    case _ => true
  }

  ghost predicate IsNetwork(networks: Networks, id: Id, bridge: int) {
    id in networks && networks[id].bridge == bridge
  }

  /** The network is deleted already, and nothing has taken its bridge number since. */
  ghost predicate Gone(networks: Networks, issued: nat, bridges: set<int>, id: Id, bridge: int) {
    id < issued && id !in networks && bridge !in bridges && forall n :: n in networks ==> networks[n].bridge != bridge
  }

  /** Another delete may have deleted the network meanwhile. */
  ghost predicate DeleteReady(networks: Networks, members: Members, issued: nat, bridges: set<int>, d: DeleteProc) {
    match d
    case Load(_, _) => true
    case CheckEmpty(network, bridge) => IsNetwork(networks, network, bridge) || Gone(networks, issued, bridges, network, bridge)
    case MarkDeleting(network, bridge) =>
      || (IsNetwork(networks, network, bridge) && MembersOf(members, network) == {})
      || Gone(networks, issued, bridges, network, bridge)
    case RemoveBridge(network, bridge) =>
      || (IsNetwork(networks, network, bridge) && MembersOf(members, network) == {}
          && networks[network].state == NetworkState.Deleting)
      || Gone(networks, issued, bridges, network, bridge)
    case DropRow(network) =>
      && network < issued
      && (network in networks ==> MembersOf(members, network) == {} && networks[network].bridge !in bridges)
  }

  ghost predicate LoadedLive(networks: Networks, net: Loaded) {
    IsNetwork(networks, net.network, net.bridge) && networks[net.network].state == NetworkState.Active
  }

  ghost predicate Numbered(containers: Containers, container: Id, ctid: int) {
    container in containers && containers[container] == ctid
  }

  ghost predicate AddReady(db: Db, nics: Nics, a: AddProc) {
    match a
    case LoadNetwork(_, _, _, _) => true
    case LoadContainer(net) => LoadedLive(db.networks, net)
    case CheckNotMember(net, ctid) => LoadedLive(db.networks, net) && Numbered(db.containers, net.container, ctid)
    case ReadIps(net, ctid) => LoadedLive(db.networks, net) && Numbered(db.containers, net.container, ctid)
    case ReadSlots(net, ctid, _) => LoadedLive(db.networks, net) && Numbered(db.containers, net.container, ctid)
    case InsertMembership(net, ctid, _, _) => LoadedLive(db.networks, net) && Numbered(db.containers, net.container, ctid)
    case Attach(member, ctid, slot, bridge) =>
      member in db.members && StandsFor(db.networks, db.containers, db.members[member], (ctid, slot), bridge)
    case MarkAttachFailed(_) => true
    case MarkActive(member) => NicThere(db.members, db.containers, nics, member)
  }

  ghost predicate NicThere(members: Members, containers: Containers, nics: Nics, member: Id) {
    member in members && members[member].container in containers && SlotKey(containers, members[member]) in nics
  }

  /** The row read earlier is still there, up to its state. */
  ghost predicate RowIs(members: Members, member: Id, row: Member) {
    member in members && members[member].(state := row.state) == row
  }

  ghost predicate RemoveReady(members: Members, containers: Containers, nics: Nics, r: RemoveProc) {
    match r
    case LoadFor(_, _, _, _) => true
    case FindMember(_, _) => true
    case FindContainer(member, row) => RowIs(members, member, row)
    case MarkDetaching(member, row, ctid) => RowIs(members, member, row) && Numbered(containers, row.container, ctid)
    case Detach(member, row, ctid) =>
      RowIs(members, member, row) && Numbered(containers, row.container, ctid) && members[member].state == Detaching
    case MarkDetachFailed(_) => true
    case DropMembership(network, container) => Unplugged(members, containers, nics, network, container)
  }

  ghost predicate Unplugged(members: Members, containers: Containers, nics: Nics, network: Id, container: Id) {
    forall id :: id in members && members[id].network == network && members[id].container == container ==>
      container in containers && SlotKey(containers, members[id]) !in nics
  }

  /** What a request relies on so that its awaits keep tables and host matched. */
  ghost predicate HostReady(db: Db, host: Host, p: Proc) {
    match p
    case Create(c) => CreateReady(db.networks, host.bridges, c)
    case Delete(d) => DeleteReady(db.networks, db.members, db.issued, host.bridges, d)
    case Add(a) => AddReady(db, host.nics, a)
    case Remove(r) => RemoveReady(db.members, db.containers, host.nics, r)
  }

  ghost predicate Fits(networks: Networks, owner: Id, cidr: Net) {
    forall id :: id in networks && networks[id].owner == owner ==> !Overlap(cidr, networks[id].cidr)
  }

  ghost predicate HasRoom(networks: Networks, owner: Id) {
    |Live(networks)| < MAX_NETWORKS_PER_NODE && |LiveOf(networks, owner)| < MAX_NETWORKS_PER_USER
  }

  /** What its checks, if nothing else happens meanwhile, tell a create request. */
  ghost predicate PlanReady(networks: Networks, p: Proc) {
    p.Create? ==>
      match p.c
      case CountNode(_, _) => true
      case CountUser(_, _) => |Live(networks)| < MAX_NETWORKS_PER_NODE
      case ListOwn(owner, _) => HasRoom(networks, owner)
      case DrawBridge(owner, cidr) => Fits(networks, owner, cidr) && HasRoom(networks, owner)
      case InsertRow(owner, cidr, _) => Fits(networks, owner, cidr) && HasRoom(networks, owner)
      case MakeBridge(network, _) => network in networks && networks[network].state == Creating
      case Activate(network) => network in networks && networks[network].state == Creating
  }

  ghost predicate Ready(db: Db, host: Host, p: Proc) {
    StaleOk(db, p) && HostReady(db, host, p) && PlanReady(db.networks, p)
  }

  // --- Rows that keep their key fields keep standing for the same bridges and slots ------

  ghost predicate SameBridges(networks: Networks, after: Networks) {
    forall id :: id in networks ==> id in after && after[id].bridge == networks[id].bridge
  }

  ghost predicate SameRows(members: Members, after: Members) {
    forall id :: id in members ==> id in after && after[id].(state := members[id].state) == members[id]
  }

  lemma BridgesStand(networks: Networks, after: Networks, bridges: set<int>)
    requires BridgesHaveRows(networks, bridges) && SameBridges(networks, after)
    ensures BridgesHaveRows(after, bridges)
  {
    forall b | b in bridges
      ensures BridgeHasRow(after, b)
    {
      assert BridgeHasRow(networks, b);
      var id :| id in networks && networks[id].bridge == b;
      assert id in after;
    }
  }

  lemma NicsStand(db: Db, after: Db, nics: Nics)
    requires NicsHaveRows(db, nics)
    requires SameBridges(db.networks, after.networks) && SameRows(db.members, after.members)
    requires ContainersExtend(db.containers, after.containers)
    ensures NicsHaveRows(after, nics)
  {
    forall key | key in nics
      ensures HasRow(after, key, nics[key])
    {
      assert HasRow(db, key, nics[key]);
      var id :| id in db.members && StandsFor(db.networks, db.containers, db.members[id], key, nics[key]);
      assert StandsFor(after.networks, after.containers, after.members[id], key, nics[key]);
    }
  }

  // --- Limits ----------------------------------------------------------------------------

  lemma InsertCounts(networks: Networks, id: Id, n: Network)
    requires id !in networks && n.state == Creating && WithinLimits(networks) && HasRoom(networks, n.owner)
    ensures WithinLimits(networks[id := n])
  {
    hide Live, LiveOf;
    var after := networks[id := n];
    LiveInsert(networks, id, n);
    forall owner
      ensures |LiveOf(after, owner)| <= MAX_NETWORKS_PER_USER
    {
      assert |LiveOf(networks, owner)| <= MAX_NETWORKS_PER_USER;
      LiveOfInsert(networks, id, n, owner);
    }
  }

  lemma LiveInsert(networks: Networks, id: Id, n: Network)
    requires id !in networks && n.state == Creating
    ensures Live(networks[id := n]) == Live(networks) + {id} && id !in Live(networks)
  {
  }

  lemma LiveOfInsert(networks: Networks, id: Id, n: Network, owner: Id)
    requires id !in networks && n.state == Creating
    ensures LiveOf(networks[id := n], owner) == if n.owner == owner then LiveOf(networks, owner) + {id} else LiveOf(networks, owner)
    ensures id !in LiveOf(networks, owner)
  {
  }

  /** Fewer live networks, with the same owners, stay within the limits. */
  lemma FewerLive(networks: Networks, after: Networks)
    requires WithinLimits(networks) && Live(after) <= Live(networks)
    requires forall id :: id in Live(after) ==> after[id].owner == networks[id].owner
    ensures WithinLimits(after)
  {
    Subset(Live(after), Live(networks));
    forall owner
      ensures |LiveOf(after, owner)| <= MAX_NETWORKS_PER_USER
    {
      assert |LiveOf(networks, owner)| <= MAX_NETWORKS_PER_USER;
      assert LiveOf(after, owner) <= LiveOf(networks, owner);
      Subset(LiveOf(after, owner), LiveOf(networks, owner));
    }
  }

  // --- Disjointness ------------------------------------------------------------------------

  lemma OwnTestIsFit(networks: Networks, owner: Id, cidr: Net)
    requires !OverlapsOwn(networks, owner, cidr)
    ensures Fits(networks, owner, cidr)
  {
    hide Overlap, Net.Network, Net.Contains;
    forall id | id in networks && networks[id].owner == owner
      ensures !Overlap(cidr, networks[id].cidr)
    {
      TwoSidedTestIsOverlap(cidr, networks[id].cidr);
    }
  }

  lemma OverlapSymmetric(a: Net, b: Net)
    ensures Overlap(a, b) <==> Overlap(b, a)
  {
    hide Net.Network, Net.Contains;
    TwoSidedTestIsOverlap(a, b);
    TwoSidedTestIsOverlap(b, a);
  }

  lemma InsertDisjoint(networks: Networks, id: Id, n: Network)
    requires id !in networks && OwnersDisjoint(networks) && Fits(networks, n.owner, n.cidr)
    ensures OwnersDisjoint(networks[id := n])
  {
    hide Overlap;
    var after := networks[id := n];
    forall i, j | i in after && j in after && i != j && after[i].owner == after[j].owner
      ensures !Overlap(after[i].cidr, after[j].cidr)
    {
      OverlapSymmetric(after[i].cidr, after[j].cidr);
    }
  }

  lemma FewerDisjoint(networks: Networks, after: Networks)
    requires OwnersDisjoint(networks)
    requires forall id :: id in after ==> id in networks && Frozen(networks[id]) == Frozen(after[id])
    ensures OwnersDisjoint(after)
  {
    hide Overlap;
  }

  // --- Tables and host: one statement or host call at a time ------------------------------------

  lemma InsertRowStep(db: Db, host: Host, n: Network)
    requires TablesOk(db) && HostMatches(db, host) && n.state == Creating && InsertNetwork(db, n).Some?
    ensures HostMatches(InsertNetwork(db, n).value, host)
  {
    hide TablesOk, BridgesHaveRows, NicsHaveRows;
    var after := InsertNetwork(db, n).value;
    IdsIssued(db);
    BridgesStand(db.networks, after.networks, host.bridges);
    NicsStand(db, after, host.nics);
  }

  lemma SetStateStep(db: Db, host: Host, id: Id, state: NetworkState)
    requires HostMatches(db, host) && id in db.networks
    requires state == NetworkState.Active ==> db.networks[id].bridge in host.bridges
    requires state != NetworkState.Active ==> MembersOf(db.members, id) == {}
    ensures HostMatches(SetNetworkState(db, id, state), host)
  {
    hide BridgesHaveRows, NicsHaveRows, ActiveHaveNics;
    var after := SetNetworkState(db, id, state);
    BridgesStand(db.networks, after.networks, host.bridges);
    NicsStand(db, after, host.nics);
    assert forall m :: m in db.members && db.members[m].network == id ==> m in MembersOf(db.members, id);
  }

  lemma MakeBridgeStep(db: Db, host: Host, bridge: int)
    requires HostMatches(db, host) && BridgeHasRow(db.networks, bridge)
    ensures HostMatches(db, host.(bridges := host.bridges + {bridge}))
  {
    hide BridgeHasRow, NicsHaveRows, ActiveHaveNics, MembersAreLive;
  }

  lemma RemoveBridgeStep(db: Db, host: Host, id: Id)
    requires TablesOk(db) && HostMatches(db, host) && id in db.networks && db.networks[id].state == NetworkState.Deleting
    ensures HostMatches(db, host.(bridges := host.bridges - {db.networks[id].bridge}))
  {
    hide BridgeHasRow, NicsHaveRows, ActiveHaveNics, MembersAreLive, MembersOk, NoClash, ContainersOk, AcceptedCidr;
  }

  lemma DropRowStep(db: Db, host: Host, id: Id)
    requires HostMatches(db, host) && id in db.networks && DeleteNetworkRow(db, id).Some?
    requires db.networks[id].bridge !in host.bridges
    ensures HostMatches(DeleteNetworkRow(db, id).value, host)
  {
    hide BridgesHaveRows, NicsHaveRows;
    DropKeepsBridges(db.networks, host.bridges, id);
    DropKeepsNics(db, host.nics, id);
    assert forall m :: m in db.members && db.members[m].network == id ==> m in MembersOf(db.members, id);
  }

  lemma DropKeepsBridges(networks: Networks, bridges: set<int>, id: Id)
    requires BridgesHaveRows(networks, bridges) && id in networks && networks[id].bridge !in bridges
    ensures BridgesHaveRows(networks - {id}, bridges)
  {
    forall b | b in bridges
      ensures BridgeHasRow(networks - {id}, b)
    {
      assert BridgeHasRow(networks, b);
      var n :| n in networks && networks[n].bridge == b;
      assert n in networks - {id};
    }
  }

  lemma DropKeepsNics(db: Db, nics: Nics, id: Id)
    requires NicsHaveRows(db, nics) && MembersOf(db.members, id) == {}
    ensures NicsHaveRows(db.(networks := db.networks - {id}), nics)
  {
    var after := db.(networks := db.networks - {id});
    assert forall m :: m in db.members && db.members[m].network == id ==> m in MembersOf(db.members, id);
    forall key | key in nics
      ensures HasRow(after, key, nics[key])
    {
      assert HasRow(db, key, nics[key]);
      var m :| m in db.members && StandsFor(db.networks, db.containers, db.members[m], key, nics[key]);
      assert StandsFor(after.networks, after.containers, after.members[m], key, nics[key]);
    }
  }

  lemma InsertMemberStep(db: Db, host: Host, m: Member)
    requires TablesOk(db) && HostMatches(db, host) && InsertMember(db, m).Some? && m.state == Attaching
    requires db.networks[m.network].state == NetworkState.Active
    ensures HostMatches(InsertMember(db, m).value, host)
  {
    hide TablesOk, BridgesHaveRows, NicsHaveRows, ActiveHaveBridges;
    var after := InsertMember(db, m).value;
    IdsIssued(db);
    NicsStand(db, after, host.nics);
  }

  lemma SetMemberStep(db: Db, host: Host, id: Id, state: MemberState)
    requires HostMatches(db, host)
    requires state == MemberState.Active && id in db.members ==> NicThere(db.members, db.containers, host.nics, id)
    ensures HostMatches(SetMemberState(db, id, state), host)
  {
    hide BridgesHaveRows, NicsHaveRows, ActiveHaveBridges;
    NicsStand(db, SetMemberState(db, id, state), host.nics);
  }

  lemma AttachStep(db: Db, host: Host, id: Id, key: (int, nat), bridge: int)
    requires HostMatches(db, host) && id in db.members
    requires StandsFor(db.networks, db.containers, db.members[id], key, bridge)
    ensures HostMatches(db, host.(nics := host.nics[key := bridge]))
  {
    hide BridgesHaveRows, ActiveHaveBridges, StandsFor, MembersAreLive;
  }

  lemma DetachStep(db: Db, host: Host, id: Id)
    requires TablesOk(db) && HostMatches(db, host) && id in db.members && db.members[id].state == Detaching
    requires db.members[id].container in db.containers
    ensures HostMatches(db, host.(nics := host.nics - {SlotKey(db.containers, db.members[id])}))
  {
    hide NetworksOk, MembersOk, Clash, BridgesHaveRows, ActiveHaveBridges, HasRow, MembersAreLive;
    forall other | other in db.members && db.members[other].state == MemberState.Active
      ensures SlotKey(db.containers, db.members[other]) != SlotKey(db.containers, db.members[id])
    {
      OtherSlot(db, id, other);
    }
  }

  lemma OtherSlot(db: Db, i: Id, j: Id)
    requires TablesOk(db) && i in db.members && j in db.members && i != j
    requires db.members[i].container in db.containers && db.members[j].container in db.containers
    ensures SlotKey(db.containers, db.members[i]) != SlotKey(db.containers, db.members[j])
  {
    hide NetworksOk, MembersOk;
    assert !Clash(db.members[i], db.members[j]);
  }

  lemma DropMemberStep(db: Db, host: Host, network: Id, container: Id)
    requires HostMatches(db, host) && Unplugged(db.members, db.containers, host.nics, network, container)
    ensures HostMatches(DeleteMemberRow(db, network, container), host)
  {
    hide BridgesHaveRows, ActiveHaveBridges, NicsHaveRows;
    DropMemberKeepsNics(db, host.nics, network, container);
  }

  lemma DropMemberKeepsNics(db: Db, nics: Nics, network: Id, container: Id)
    requires NicsHaveRows(db, nics) && Unplugged(db.members, db.containers, nics, network, container)
    ensures NicsHaveRows(DeleteMemberRow(db, network, container), nics)
  {
    var after := DeleteMemberRow(db, network, container);
    forall key | key in nics
      ensures HasRow(after, key, nics[key])
    {
      assert HasRow(db, key, nics[key]);
      var m :| m in db.members && StandsFor(db.networks, db.containers, db.members[m], key, nics[key]);
      assert m in after.members;
    }
  }

  // --- Tables and host: one await, with the request's next await ready ----------------------------

  ghost predicate Kept(o: Outcome) { HostMatches(o.db, o.host) && (o.next.Continue? ==> HostReady(o.db, o.host, o.next.p)) }

  lemma CreateStep(db: Db, host: Host, c: CreateProc, reply: Reply)
    requires TablesOk(db) && HostMatches(db, host) && CreateReady(db.networks, host.bridges, c)
    ensures Kept(StepCreate(db, host, c, reply))
  {
    hide TablesOk, HostMatches, OverlapsOwn, AsI32, Live, LiveOf;
    match c
    case DrawBridge(_, _) => DrawStep(db, host);
    case InsertRow(owner, cidr, bridge) =>
      var n := Network(owner, bridge, cidr, Creating);
      if InsertNetwork(db, n).Some? { InsertRowStep(db, host, n); }
    case MakeBridge(network, bridge) =>
      assert BridgeHasRow(db.networks, bridge);
      MakeBridgeStep(db, host, bridge);
    case Activate(network) => SetStateStep(db, host, network, NetworkState.Active);
    case _ =>
  }

  lemma DrawStep(db: Db, host: Host)
    requires HostMatches(db, host)
    ensures HostMatches(db.(nextBridge := db.nextBridge + 1), host)
  {
    hide BridgesHaveRows, ActiveHaveBridges, ActiveHaveNics, MembersAreLive;
    NicsStand(db, db.(nextBridge := db.nextBridge + 1), host.nics);
  }

  lemma DeleteStep(db: Db, host: Host, d: DeleteProc, reply: Reply)
    requires TablesOk(db) && HostMatches(db, host) && DeleteReady(db.networks, db.members, db.issued, host.bridges, d)
    ensures Kept(StepDelete(db, host, d, reply))
  {
    hide TablesOk, HostMatches, MembersOf;
    IdsIssued(db);
    GoneHasNoMembers(db);
    match d
    case MarkDeleting(network, _) =>
      if network in db.networks { SetStateStep(db, host, network, NetworkState.Deleting); }
    case RemoveBridge(network, bridge) =>
      if network in db.networks {
        RemoveBridgeStep(db, host, network);
      } else {
        assert host.bridges - {bridge} == host.bridges;
      }
    case DropRow(network) =>
      if network !in db.networks {
        assert db.networks - {network} == db.networks;
      } else if DeleteNetworkRow(db, network).Some? {
        DropRowStep(db, host, network);
      }
    case _ =>
  }

  lemma GoneHasNoMembers(db: Db)
    requires TablesOk(db)
    ensures forall network :: network !in db.networks ==> MembersOf(db.members, network) == {}
  {
    hide NetworksOk, ContainersOk, NoClash, AddressInRange;
  }

  lemma AddStep(db: Db, host: Host, a: AddProc, reply: Reply)
    requires TablesOk(db) && HostMatches(db, host) && AddReady(db, host.nics, a)
    ensures Kept(StepAdd(db, host, a, reply))
  {
    hide TablesOk, HostMatches, PrintAddress, LowestFreeAddress, MembersOf, UsedIn, UsedSlots, LowestFree;
    match a
    case InsertMembership(net, ctid, ip, slot) =>
      var m := Member(net.network, net.container, PrintAddress(ip), slot, Attaching);
      if InsertMember(db, m).Some? { InsertMemberStep(db, host, m); }
    case Attach(member, ctid, slot, bridge) => AttachStep(db, host, member, (ctid, slot), bridge);
    case MarkAttachFailed(member) => SetMemberStep(db, host, member, MemberState.Failed);
    case MarkActive(member) => SetMemberStep(db, host, member, MemberState.Active);
    case _ =>
  }

  lemma RemoveStep(db: Db, host: Host, r: RemoveProc, reply: Reply)
    requires TablesOk(db) && HostMatches(db, host) && RemoveReady(db.members, db.containers, host.nics, r)
    ensures Kept(StepRemove(db, host, r, reply))
  {
    hide TablesOk, HostMatches, DeleteMemberRow, Unplugged, Pick;
    match r
    case MarkDetaching(member, _, _) => SetMemberStep(db, host, member, Detaching);
    case Detach(member, row, ctid) =>
      DetachStep(db, host, member);
      OnlyRowUnplugged(db, host.nics - {(ctid, row.slot)}, member);
    case MarkDetachFailed(member) => SetMemberStep(db, host, member, MemberState.Failed);
    case DropMembership(network, container) => DropMemberStep(db, host, network, container);
    case _ =>
  }

  lemma OnlyRowUnplugged(db: Db, nics: Nics, member: Id)
    requires TablesOk(db) && member in db.members && db.members[member].container in db.containers
    requires SlotKey(db.containers, db.members[member]) !in nics
    ensures Unplugged(db.members, db.containers, nics, db.members[member].network, db.members[member].container)
  {
    hide NetworksOk, MembersOk, ContainersOk;
    forall id | id in db.members && db.members[id].network == db.members[member].network
                && db.members[id].container == db.members[member].container
      ensures id == member
    {
      assert Clash(db.members[id], db.members[member]);
    }
  }

  lemma HostStep(db: Db, host: Host, p: Proc, reply: Reply)
    requires TablesOk(db) && HostMatches(db, host) && HostReady(db, host, p)
    ensures Kept(Step(db, host, p, reply))
  {
    hide TablesOk, HostMatches, StepCreate, StepDelete, StepAdd, StepRemove, Kept;
    hide CreateReady, DeleteReady, AddReady, RemoveReady;
    match p
    case Create(c) => CreateStep(db, host, c, reply);
    case Delete(d) => DeleteStep(db, host, d, reply);
    case Add(a) => AddStep(db, host, a, reply);
    case Remove(r) => RemoveStep(db, host, r, reply);
  }

  // --- Limits and blocks: one await of a request run alone -----------------------------------------

  /** What an await can do to the network rows. */
  ghost predicate RowsChange(db: Db, p: Proc, o: Outcome) {
    || o.db.networks == db.networks
    || (p.Create? && p.c.InsertRow? && db.issued !in db.networks
        && o.db.networks == db.networks[db.issued := Network(p.c.owner, p.c.bridge, p.c.cidr, Creating)])
    || (p.Create? && p.c.Activate? && p.c.network in db.networks
        && o.db.networks == db.networks[p.c.network := db.networks[p.c.network].(state := NetworkState.Active)])
    || (p.Delete? && p.d.MarkDeleting? && p.d.network in db.networks
        && o.db.networks == db.networks[p.d.network := db.networks[p.d.network].(state := NetworkState.Deleting)])
    || (p.Delete? && p.d.DropRow? && o.db.networks == db.networks - {p.d.network})
  }

  lemma StepChangesRows(db: Db, host: Host, p: Proc, reply: Reply)
    requires TablesOk(db)
    ensures RowsChange(db, p, Step(db, host, p, reply))
  {
    hide TablesOk, OverlapsOwn, AsI32, Live, LiveOf, PrintAddress, LowestFreeAddress, MembersOf, UsedIn, UsedSlots, LowestFree;
    hide Pick, Clash;
    IdsIssued(db);
    match p
    case Create(c) => assert RowsChange(db, p, StepCreate(db, host, c, reply));
    case Delete(d) => assert RowsChange(db, p, StepDelete(db, host, d, reply));
    case Add(a) => assert StepAdd(db, host, a, reply).db.networks == db.networks;
    case Remove(r) => assert StepRemove(db, host, r, reply).db.networks == db.networks;
  }

  lemma PlanStep(db: Db, host: Host, p: Proc, reply: Reply)
    requires TablesOk(db) && OwnersDisjoint(db.networks) && WithinLimits(db.networks) && PlanReady(db.networks, p)
    ensures var o := Step(db, host, p, reply);
            OwnersDisjoint(o.db.networks) && WithinLimits(o.db.networks) && (o.next.Continue? ==> PlanReady(o.db.networks, o.next.p))
  {
    hide TablesOk, OwnersDisjoint, WithinLimits, PlanReady, Step;
    var o := Step(db, host, p, reply);
    StepChangesRows(db, host, p, reply);
    NextPlan(db, host, p, reply);
    if p.Create? && p.c.InsertRow? && o.db.networks != db.networks {
      var n := Network(p.c.owner, p.c.bridge, p.c.cidr, Creating);
      PlanFits(db.networks, p.c);
      InsertCounts(db.networks, db.issued, n);
      InsertDisjoint(db.networks, db.issued, n);
    } else if o.db.networks != db.networks {
      if p.Create? && p.c.Activate? { ActivatesLive(db.networks, p); }
      FewerLive(db.networks, o.db.networks);
      FewerDisjoint(db.networks, o.db.networks);
    }
  }

  lemma PlanFits(networks: Networks, c: CreateProc)
    requires c.InsertRow? && PlanReady(networks, Create(c))
    ensures Fits(networks, c.owner, c.cidr) && HasRoom(networks, c.owner)
  {
  }

  lemma ActivatesLive(networks: Networks, p: Proc)
    requires PlanReady(networks, p) && p.Create? && p.c.Activate?
    ensures p.c.network in Live(networks)
  {
  }

  lemma NextPlan(db: Db, host: Host, p: Proc, reply: Reply)
    requires PlanReady(db.networks, p)
    ensures var o := Step(db, host, p, reply); o.next.Continue? ==> PlanReady(o.db.networks, o.next.p)
  {
    hide Fits, OverlapsOwn;
    if !p.Create? { OthersStay(db, host, p, reply); }
    if p.Create? && p.c.ListOwn? && !OverlapsOwn(db.networks, p.c.owner, p.c.cidr) {
      OwnTestIsFit(db.networks, p.c.owner, p.c.cidr);
    }
  }

  lemma OthersStay(db: Db, host: Host, p: Proc, reply: Reply)
    requires !p.Create?
    ensures var o := Step(db, host, p, reply); o.next.Continue? ==> !o.next.p.Create?
  {
    hide LowestFreeAddress, MembersOf, Pick, UsedIn, UsedSlots, Clash, PrintAddress, LowestFree;
  }

  /** Each await of a request run alone keeps everything, and leaves its next await ready. */
  lemma AloneStep(db: Db, host: Host, p: Proc, reply: Reply)
    requires Consistent(db, host) && Ready(db, host, p)
    ensures var o := Step(db, host, p, reply); Consistent(o.db, o.host) && (o.next.Continue? ==> Ready(o.db, o.host, o.next.p))
  {
    hide TablesOk, HostMatches, OwnersDisjoint, WithinLimits, Step, StaleOk, HostReady, PlanReady, Extends;
    StepKeepsTables(db, host, p, reply);
    HostStep(db, host, p, reply);
    PlanStep(db, host, p, reply);
  }

  lemma StartReady(db: Db, host: Host, req: Request)
    ensures Start(req).Continue? ==> Ready(db, host, Start(req).p)
  {
  }
}
