/** The two private-network tables, the bridge sequence and the Proxmox host, with one function per statement. */
module NetworkTables {
  import opened Basics
  import opened Ipv4
  import opened Addressing

  type Id = nat

  datatype NetworkState = Creating | Active | Deleting | Failed

  datatype MemberState = Attaching | Active | Detaching | Failed

  datatype Network = Network(owner: Id, bridge: int, cidr: Net, state: NetworkState)

  datatype Member = Member(network: Id, container: Id, ip: string, slot: nat, state: MemberState)

  /** `containers` maps a container to its Proxmox number; `issued` counts fresh UUIDs handed out so far. */
  datatype Db = Db(
    networks: Networks,
    members: Members,
    containers: Containers,
    nextBridge: nat,
    issued: nat)

  /** Bridges that exist on the host, and the bridge behind each occupied NIC slot of a container. */
  datatype Host = Host(bridges: set<int>, nics: map<(int, nat), int>)

  const MAX_NETWORKS_PER_NODE: nat := 100
  const MAX_NETWORKS_PER_USER: nat := 5
  const MAX_SLOT: nat := 15
  const FIRST_BRIDGE: nat := 100

  /** `id as i32` on the 64-bit sequence value keeps the low 32 bits as a signed number. */
  function AsI32(n: nat): (r: int)
    ensures -0x8000_0000 <= r < 0x8000_0000
  {
    var low := n % 0x1_0000_0000;
    if low < 0x8000_0000 then low else low - 0x1_0000_0000
  }

  type Networks = map<Id, Network>
  type Members = map<Id, Member>
  type Containers = map<Id, int>

  function Live(networks: Networks): set<Id> {
    set id | id in networks && (networks[id].state.Creating? || networks[id].state == NetworkState.Active)
  }

  function LiveOf(networks: Networks, owner: Id): set<Id> {
    set id | id in Live(networks) && networks[id].owner == owner
  }

  function OwnedBy(networks: Networks, owner: Id): set<Id> {
    set id | id in networks && networks[id].owner == owner
  }

  function OwnedBlocks(networks: Networks, owner: Id): set<Net> {
    set id | id in OwnedBy(networks, owner) :: networks[id].cidr
  }

  function MembersOf(members: Members, network: Id): set<Id> {
    set id | id in members && members[id].network == network
  }

  function UsedIps(members: Members, network: Id): set<string> {
    set id | id in MembersOf(members, network) :: members[id].ip
  }

  function UsedSlots(members: Members, container: Id): set<nat> {
    set id | id in members && members[id].container == container :: members[id].slot
  }

  // --- Statements on the network table -------------------------------------

  /** INSERT of a network under a fresh id; the bridge number is unique. */
  function InsertNetwork(db: Db, n: Network): Option<Db> {
    if exists id :: id in db.networks && db.networks[id].bridge == n.bridge then None
    else Some(db.(networks := db.networks[db.issued := n], issued := db.issued + 1))
  }

  function SetNetworkState(db: Db, id: Id, state: NetworkState): Db {
    if id in db.networks then db.(networks := db.networks[id := db.networks[id].(state := state)]) else db
  }

  /** DELETE of a network; the foreign key of the memberships rejects it while any member row refers to it. */
  function DeleteNetworkRow(db: Db, id: Id): Option<Db> {
    if id in db.networks && MembersOf(db.members, id) != {} then None
    else Some(db.(networks := db.networks - {id}))
  }

  // --- Statements on the membership table ----------------------------------

  /** INSERT of a membership under a fresh id, with its foreign keys, its slot check and its three unique keys. */
  function InsertMember(db: Db, m: Member): Option<Db> {
    if m.network !in db.networks || m.container !in db.containers || !(1 <= m.slot <= MAX_SLOT) then None
    else if exists id :: id in db.members && Clash(db.members[id], m) then None
    else Some(db.(members := db.members[db.issued := m], issued := db.issued + 1))
  }

  predicate Clash(a: Member, b: Member) {
    (a.network == b.network && (a.container == b.container || a.ip == b.ip))
    || (a.container == b.container && a.slot == b.slot)
  }

  function SetMemberState(db: Db, id: Id, state: MemberState): Db {
    if id in db.members then db.(members := db.members[id := db.members[id].(state := state)]) else db
  }

  function DeleteMemberRow(db: Db, network: Id, container: Id): Db {
    db.(members := map id | id in db.members &&
                            !(db.members[id].network == network && db.members[id].container == container)
                          :: db.members[id])
  }

  // --- What the tables promise ----------------------------------------------

  /** The address of a membership lies in the allocatable range of its network's block. */
  ghost predicate AddressInRange(cidr: Net, ip: string) {
    ParseAddress(ip).Some? && Allocatable(cidr, ParseAddress(ip).value)
  }

  ghost predicate NetworksOk(networks: Networks, issued: nat) {
    && (forall id :: id in networks ==> id < issued && AcceptedCidr(networks[id].cidr))
    && (forall i, j :: i in networks && j in networks && i != j ==> networks[i].bridge != networks[j].bridge)
  }

  ghost predicate ContainersOk(containers: Containers, issued: nat) {
    && (forall id :: id in containers ==> id < issued)
    && (forall i, j :: i in containers && j in containers && i != j ==> containers[i] != containers[j])
  }

  ghost predicate MemberOk(db: Db, id: Id, m: Member) {
    && id < db.issued
    && m.network in db.networks && m.container in db.containers
    && AddressInRange(db.networks[m.network].cidr, m.ip)
    && 1 <= m.slot <= MAX_SLOT
  }

  ghost predicate MembersOk(db: Db) {
    forall id :: id in db.members ==> MemberOk(db, id, db.members[id])
  }

  /** The three unique keys of the memberships. */
  ghost predicate NoClash(members: Members) {
    forall i, j :: i in members && j in members && i != j ==> !Clash(members[i], members[j])
  }

  ghost predicate TablesOk(db: Db) {
    NetworksOk(db.networks, db.issued) && ContainersOk(db.containers, db.issued) && MembersOk(db) && NoClash(db.members)
  }

  ghost function Frozen(n: Network): (Id, int, Net) { (n.owner, n.bridge, n.cidr) }

  ghost predicate NetworksExtend(networks: Networks, after: Networks, issued: nat) {
    forall id :: id in after && id < issued ==> id in networks && Frozen(networks[id]) == Frozen(after[id])
  }

  ghost predicate ContainersExtend(containers: Containers, after: Containers) {
    forall id :: id in containers ==> id in after && after[id] == containers[id]
  }

  /** What no statement ever undoes: ids stay used up, and a network's block, owner and bridge never change. */
  ghost predicate Extends(db: Db, after: Db) {
    && db.issued <= after.issued
    && db.nextBridge <= after.nextBridge
    && NetworksExtend(db.networks, after.networks, db.issued)
    && ContainersExtend(db.containers, after.containers)
  }
}
