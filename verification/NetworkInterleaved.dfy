/** Safety of the membership table in every interleaving of network requests. */
module NetworkInterleaved {
  import opened Basics
  import opened Ipv4
  import opened Addressing
  import opened NetworkTables
  import opened NetworkSteps

  /** All requests in flight, each at its next await. */
  datatype World = World(db: Db, host: Host, procs: map<nat, Proc>, nextPid: nat)

  /** A request may be dropped at any await; containers appear independently. */
  datatype Event =
    | Begin(req: Request)
    | Act(pid: nat, reply: Reply)
    | Drop(pid: nat)
    | NewContainer(ctid: int)

  const INIT: World :=
    World(Db(map[], map[], map[], FIRST_BRIDGE, 0), Host({}, map[]), map[], 0)

  ghost function Apply(w: World, e: Event): World {
    match e
    case Begin(req) =>
      (match Start(req)
       case Return(_) => w
       case Continue(p) => w.(procs := w.procs[w.nextPid := p], nextPid := w.nextPid + 1))
    case Act(pid, reply) =>
      if pid !in w.procs then w
      else
        var o := Step(w.db, w.host, w.procs[pid], reply);
        w.(db := o.db, host := o.host,
           procs := if o.next.Continue? then w.procs[pid := o.next.p] else w.procs - {pid})
    case Drop(pid) => w.(procs := w.procs - {pid})
    case NewContainer(ctid) =>
      if exists c :: c in w.db.containers && w.db.containers[c] == ctid then w
      else w.(db := AddContainer(w.db, ctid))
  }

  function AddContainer(db: Db, ctid: int): Db {
    db.(containers := db.containers[db.issued := ctid], issued := db.issued + 1)
  }

  ghost function Run(w: World, es: seq<Event>): World {
    if es == [] then w else Apply(Run(w, es[..|es| - 1]), es[|es| - 1])
  }

  // --- What a request may rely on although its reads are stale -----------------

  ghost predicate StaleOk(db: Db, p: Proc) {
    match p
    case Create(c) => c.MakeBridge? || c.Activate? || AcceptedCidr(c.cidr)
    case Delete(_) => true
    case Add(a) => StaleAddOk(db, a)
    case Remove(_) => true
  }

  ghost predicate StaleAddOk(db: Db, a: AddProc) {
    match a
    case LoadContainer(net) => LoadedOk(db, net)
    case CheckNotMember(net, _) => LoadedOk(db, net)
    case ReadIps(net, _) => LoadedOk(db, net)
    case ReadSlots(net, _, ip) => LoadedOk(db, net) && Allocatable(net.cidr, ip)
    case InsertMembership(net, _, ip, slot) => LoadedOk(db, net) && Allocatable(net.cidr, ip) && 1 <= slot <= MAX_SLOT
    case _ => true
  }

  /** The block read earlier is still the block of that network, if the network is still there. */
  ghost predicate LoadedOk(db: Db, net: Loaded) {
    net.network < db.issued && (net.network in db.networks ==> db.networks[net.network].cidr == net.cidr)
  }

  lemma StaleStays(db: Db, after: Db, p: Proc)
    requires StaleOk(db, p) && Extends(db, after)
    ensures StaleOk(after, p)
  {
    hide AcceptedCidr, Allocatable;
  }

  lemma ExtendsTransitive(a: Db, b: Db, c: Db)
    requires Extends(a, b) && Extends(b, c)
    ensures Extends(a, c)
  {
  }

  // --- One step ------------------------------------------------------------------

  lemma InsertNetworkKeeps(db: Db, n: Network)
    requires TablesOk(db) && AcceptedCidr(n.cidr) && InsertNetwork(db, n).Some?
    ensures TablesOk(InsertNetwork(db, n).value) && Extends(db, InsertNetwork(db, n).value)
  {
    hide AddressInRange, AcceptedCidr, NoClash;
  }

  lemma SetNetworkStateKeeps(db: Db, id: Id, state: NetworkState)
    requires TablesOk(db)
    ensures TablesOk(SetNetworkState(db, id, state)) && Extends(db, SetNetworkState(db, id, state))
  {
    hide AddressInRange, AcceptedCidr, NoClash, ContainersOk;
  }

  lemma DeleteNetworkKeeps(db: Db, id: Id)
    requires TablesOk(db) && DeleteNetworkRow(db, id).Some?
    ensures TablesOk(DeleteNetworkRow(db, id).value) && Extends(db, DeleteNetworkRow(db, id).value)
  {
    hide AddressInRange, AcceptedCidr, NoClash, ContainersOk;
    assert forall m :: m in db.members && db.members[m].network == id ==> m in MembersOf(db.members, id);
  }

  lemma InsertMemberKeeps(db: Db, m: Member)
    requires TablesOk(db) && InsertMember(db, m).Some?
    requires AddressInRange(db.networks[m.network].cidr, m.ip)
    ensures TablesOk(InsertMember(db, m).value) && Extends(db, InsertMember(db, m).value)
  {
    hide AddressInRange, AcceptedCidr;
  }

  lemma SetMemberStateKeeps(db: Db, id: Id, state: MemberState)
    requires TablesOk(db)
    ensures TablesOk(SetMemberState(db, id, state)) && Extends(db, SetMemberState(db, id, state))
  {
    hide AddressInRange, NetworksOk, ContainersOk;
  }

  lemma DeleteMemberKeeps(db: Db, network: Id, container: Id)
    requires TablesOk(db)
    ensures TablesOk(DeleteMemberRow(db, network, container)) && Extends(db, DeleteMemberRow(db, network, container))
  {
    hide AddressInRange, NetworksOk, ContainersOk;
  }

  /** Each statement keeps the tables sound, whatever the request's earlier reads have become. */
  lemma StepKeepsTables(db: Db, host: Host, p: Proc, reply: Reply)
    requires TablesOk(db) && StaleOk(db, p)
    ensures var o := Step(db, host, p, reply);
            TablesOk(o.db) && Extends(db, o.db) && (o.next.Continue? ==> StaleOk(o.db, o.next.p))
  {
    match p
    case Create(c) => StepCreateKeepsTables(db, host, c, reply);
    case Delete(d) => StepDeleteKeepsTables(db, host, d, reply);
    case Add(a) => StepAddKeepsTables(db, host, a, reply);
    case Remove(r) => StepRemoveKeepsTables(db, host, r, reply);
  }

  lemma Same(db: Db)
    ensures Extends(db, db)
  {
  }

  lemma StepCreateKeepsTables(db: Db, host: Host, c: CreateProc, reply: Reply)
    requires TablesOk(db) && StaleOk(db, Create(c))
    ensures var o := StepCreate(db, host, c, reply);
            TablesOk(o.db) && Extends(db, o.db) && (o.next.Continue? ==> StaleOk(o.db, o.next.p))
  {
    hide NetworksOk, ContainersOk, NoClash, AcceptedCidr, NetworksExtend, ContainersExtend, InsertNetwork;
    hide SetNetworkState, AddressInRange;
    Same(db);
    match c
    case InsertRow(owner, cidr, bridge) =>
      var n := Network(owner, bridge, cidr, Creating);
      if InsertNetwork(db, n).Some? { InsertNetworkKeeps(db, n); }
    case Activate(network) => SetNetworkStateKeeps(db, network, NetworkState.Active);
    case _ =>
  }

  lemma StepDeleteKeepsTables(db: Db, host: Host, d: DeleteProc, reply: Reply)
    requires TablesOk(db)
    ensures var o := StepDelete(db, host, d, reply);
            TablesOk(o.db) && Extends(db, o.db) && (o.next.Continue? ==> StaleOk(o.db, o.next.p))
  {
    hide TablesOk, Extends, SetNetworkState, DeleteNetworkRow;
    Same(db);
    match d
    case MarkDeleting(network, _) => SetNetworkStateKeeps(db, network, NetworkState.Deleting);
    case DropRow(network) =>
      if DeleteNetworkRow(db, network).Some? { DeleteNetworkKeeps(db, network); }
    case _ =>
  }

  lemma StepRemoveKeepsTables(db: Db, host: Host, r: RemoveProc, reply: Reply)
    requires TablesOk(db)
    ensures var o := StepRemove(db, host, r, reply);
            TablesOk(o.db) && Extends(db, o.db) && (o.next.Continue? ==> StaleOk(o.db, o.next.p))
  {
    hide TablesOk, Extends, SetMemberState, DeleteMemberRow;
    Same(db);
    match r
    case MarkDetaching(member, _, _) => SetMemberStateKeeps(db, member, Detaching);
    case MarkDetachFailed(member) => SetMemberStateKeeps(db, member, MemberState.Failed);
    case DropMembership(network, container) => DeleteMemberKeeps(db, network, container);
    case _ =>
  }

  lemma PrintedInRange(cidr: Net, ip: Address)
    requires Allocatable(cidr, ip)
    ensures AddressInRange(cidr, PrintAddress(ip))
  {
    AddressRoundTrip(ip);
  }

  lemma StepAddKeepsTables(db: Db, host: Host, a: AddProc, reply: Reply)
    requires TablesOk(db) && StaleAddOk(db, a)
    ensures var o := StepAdd(db, host, a, reply);
            TablesOk(o.db) && Extends(db, o.db) && (o.next.Continue? ==> StaleOk(o.db, o.next.p))
  {
    hide TablesOk, Extends, AddressInRange, Allocatable, PrintAddress, LowestFreeAddress, InsertMember, SetMemberState;
    Same(db);
    match a
    case LoadNetwork(_, network, _, _) =>
      assert network in db.networks ==> network < db.issued by { IdsIssued(db); }
    case ReadIps(net, _) =>
      var used := UsedIn(db.members, net.network);
      var r := LowestFreeAddress(net.cidr, used);
      if r.Some? { AllocatedAddress(net.cidr, used, r.value); }
    case InsertMembership(net, _, ip, slot) =>
      PrintedInRange(net.cidr, ip);
      var m := Member(net.network, net.container, PrintAddress(ip), slot, Attaching);
      InsertNeedsNetwork(db, m);
      if InsertMember(db, m).Some? { InsertMemberKeeps(db, m); }
    case MarkAttachFailed(member) => SetMemberStateKeeps(db, member, MemberState.Failed);
    case MarkActive(member) => SetMemberStateKeeps(db, member, MemberState.Active);
    case _ =>
  }

  lemma IdsIssued(db: Db)
    requires TablesOk(db)
    ensures forall id :: id in db.networks ==> id < db.issued
    ensures forall id :: id in db.members ==> id < db.issued
  {
    hide AddressInRange, AcceptedCidr, NoClash, ContainersOk;
  }

  lemma InsertNeedsNetwork(db: Db, m: Member)
    ensures InsertMember(db, m).Some? ==> m.network in db.networks
  {
  }

  // --- Every run --------------------------------------------------------------------

  ghost predicate WorldOk(w: World) {
    TablesOk(w.db) && forall pid :: pid in w.procs ==> StaleOk(w.db, w.procs[pid])
  }

  lemma AddContainerKeeps(db: Db, ctid: int)
    requires TablesOk(db) && forall c :: c in db.containers ==> db.containers[c] != ctid
    ensures TablesOk(AddContainer(db, ctid)) && Extends(db, AddContainer(db, ctid))
  {
    hide AddressInRange, AcceptedCidr, NoClash;
  }

  lemma StartOk(db: Db, req: Request)
    ensures Start(req).Continue? ==> StaleOk(db, Start(req).p)
  {
  }

  lemma ApplyKeepsWorld(w: World, e: Event)
    requires WorldOk(w)
    ensures WorldOk(Apply(w, e)) && Extends(w.db, Apply(w, e).db)
  {
    hide TablesOk, Extends, Step, StaleOk, Start;
    var after := Apply(w, e);
    Same(w.db);
    match e
    case Begin(req) => StartOk(w.db, req);
    case Drop(_) =>
    case Act(pid, reply) =>
      if pid in w.procs {
        StepKeepsTables(w.db, w.host, w.procs[pid], reply);
        forall other | other in w.procs && other != pid
          ensures StaleOk(after.db, w.procs[other])
        {
          StaleStays(w.db, after.db, w.procs[other]);
        }
      }
    case NewContainer(ctid) =>
      if after != w {
        AddContainerKeeps(w.db, ctid);
        forall pid | pid in w.procs ensures StaleOk(after.db, w.procs[pid]) { StaleStays(w.db, after.db, w.procs[pid]); }
      }
  }

  lemma {:induction false} RunKeepsWorld(w: World, es: seq<Event>)
    requires WorldOk(w)
    ensures WorldOk(Run(w, es)) && Extends(w.db, Run(w, es).db)
  {
    hide TablesOk, Extends, Apply, StaleOk;
    if es == [] {
      Same(w.db);
    } else {
      var before := Run(w, es[..|es| - 1]);
      RunKeepsWorld(w, es[..|es| - 1]);
      ApplyKeepsWorld(before, es[|es| - 1]);
      ExtendsTransitive(w.db, before.db, Run(w, es).db);
    }
  }

  /** The address a membership stands for. */
  ghost function AddressOf(m: Member): Option<Address> { ParseAddress(m.ip) }

  /**
   * In every interleaving of any number of requests, dropped anywhere and with any host failures: no two memberships
   * share an address in a network or a slot on a container, every address is a private host address of its network's
   * block other than the first host, every slot is 1 to 15, and no membership outlives its network.
   */
  lemma MembershipSafety(es: seq<Event>, i: Id, j: Id)
    requires i in Run(INIT, es).db.members && j in Run(INIT, es).db.members
    ensures var db := Run(INIT, es).db; var m := db.members[i];
            && m.network in db.networks && 1 <= m.slot <= 15
            && AddressOf(m).Some? && IsPrivateNetworkAddress(AddressOf(m).value)
            && (var block := db.networks[m.network].cidr;
                block.Network() + 1 < AddressOf(m).value < block.Broadcast())
    ensures var db := Run(INIT, es).db; var a, b := db.members[i], db.members[j];
            i != j ==>
              && (a.network == b.network ==> AddressOf(a) != AddressOf(b) && a.container != b.container)
              && (a.container == b.container ==> a.slot != b.slot)
  {
    hide Run;
    InitOk();
    RunKeepsWorld(INIT, es);
    MemberMeaning(Run(INIT, es).db, i);
    PairMeaning(Run(INIT, es).db, i, j);
  }

  lemma InitOk()
    ensures WorldOk(INIT)
  {
  }

  lemma MemberMeaning(db: Db, i: Id)
    requires TablesOk(db) && i in db.members
    ensures var m := db.members[i];
            && m.network in db.networks && 1 <= m.slot <= 15
            && AddressOf(m).Some? && IsPrivateNetworkAddress(AddressOf(m).value)
            && (var block := db.networks[m.network].cidr;
                block.Network() + 1 < AddressOf(m).value < block.Broadcast())
  {
    hide NoClash, ContainersOk, Allocatable, AcceptedCidr, ParseAddress, Net.Network, Net.Broadcast;
    assert MemberOk(db, i, db.members[i]);
    var m := db.members[i];
    AllocatedIsPrivate(db.networks[m.network].cidr, AddressOf(m).value);
  }

  lemma PairMeaning(db: Db, i: Id, j: Id)
    requires TablesOk(db) && i in db.members && j in db.members
    ensures var a, b := db.members[i], db.members[j];
            i != j ==>
              && (a.network == b.network ==> AddressOf(a) != AddressOf(b) && a.container != b.container)
              && (a.container == b.container ==> a.slot != b.slot)
  {
    hide ContainersOk, NetworksOk, Allocatable, ParseAddress;
    var a, b := db.members[i], db.members[j];
    assert MemberOk(db, i, a) && MemberOk(db, j, b);
    assert i != j ==> !Clash(a, b);
    if AddressOf(a) == AddressOf(b) {
      AddressParseIsPrint(a.ip, AddressOf(a).value);
      AddressParseIsPrint(b.ip, AddressOf(b).value);
    }
  }

  /** The addresses read back from the stored texts are exactly the allocated ones. */
  lemma UsedIsAllocated(members: Members, network: Id, a: Address)
    ensures a in UsedIn(members, network) <==>
            exists id :: id in MembersOf(members, network) && members[id].ip == PrintAddress(a)
  {
    hide PrintAddress, ParseAddress;
    AddressRoundTrip(a);
    if a in UsedIn(members, network) {
      var ip :| ip in UsedIps(members, network) && ParseAddress(ip) == Some(a);
      AddressParseIsPrint(ip, a);
    }
    if id :| id in MembersOf(members, network) && members[id].ip == PrintAddress(a) {
      assert PrintAddress(a) in UsedIps(members, network);
    }
  }

  /** A network's block, owner and bridge are the same at every later point of any run, as long as it exists. */
  lemma NetworkIsImmutable(es: seq<Event>, more: seq<Event>, id: Id)
    requires id in Run(INIT, es).db.networks && id in Run(Run(INIT, es), more).db.networks
    ensures Frozen(Run(INIT, es).db.networks[id]) == Frozen(Run(Run(INIT, es), more).db.networks[id])
  {
    hide Run, TablesOk, StaleOk;
    var w := Run(INIT, es);
    InitOk();
    RunKeepsWorld(INIT, es);
    RunKeepsWorld(w, more);
    IdsIssued(w.db);
  }
}
