/** Crash consistency over requests that interleave: which two requests must not be in flight together. */
module NetworkParallel {
  import opened Basics
  import opened Ipv4
  import opened Addressing
  import opened NetworkTables
  import opened NetworkSteps
  import opened NetworkInterleaved
  import opened NetworkBridges
  import opened NetworkConsistency

  // --- Colliding requests -----------------------------------------------------------------

  ghost function RowKey(members: Members, member: Id): Option<(Id, Id)> {
    if member in members then Some((members[member].network, members[member].container)) else None
  }

  /** The network and the container an add or a remove is about. */
  ghost function MembershipOf(members: Members, p: Proc): Option<(Id, Id)> {
    match p
    case Add(LoadNetwork(_, network, container, _)) => Some((network, container))
    case Add(Attach(member, _, _, _)) => RowKey(members, member)
    case Add(MarkAttachFailed(member)) => RowKey(members, member)
    case Add(MarkActive(member)) => RowKey(members, member)
    case Add(a) => Some((a.net.network, a.net.container))
    case Remove(LoadFor(_, network, container, _)) => Some((network, container))
    case Remove(FindMember(network, container)) => Some((network, container))
    case Remove(MarkDetachFailed(member)) => RowKey(members, member)
    case Remove(DropMembership(network, container)) => Some((network, container))
    case Remove(r) => Some((r.row.network, r.row.container))
    case _ => None
  }

  /** The network a request is about; a create has one from its insert on. */
  ghost function NetworkOf(members: Members, p: Proc): Option<Id> {
    match p
    case Create(c) => if c.MakeBridge? || c.Activate? then Some(c.network) else None
    case Delete(d) => Some(d.network)
    case _ =>
      match MembershipOf(members, p)
      case Some((network, _)) => Some(network)
      case None => None
  }

  ghost predicate SameNetwork(members: Members, p: Proc, q: Proc) {
    NetworkOf(members, p).Some? && NetworkOf(members, p) == NetworkOf(members, q)
  }

  ghost predicate SameMembership(members: Members, p: Proc, q: Proc) {
    MembershipOf(members, p).Some? && MembershipOf(members, p) == MembershipOf(members, q)
  }

  /** A delete disturbs a create or add on its network, and a remove an add or remove of its membership. */
  ghost predicate Disturbs(members: Members, p: Proc, q: Proc) {
    || (p.Delete? && (q.Create? || q.Add?) && SameNetwork(members, p, q))
    || (p.Remove? && (q.Add? || q.Remove?) && SameMembership(members, p, q))
  }

  ghost predicate Collide(members: Members, p: Proc, q: Proc) { Disturbs(members, p, q) || Disturbs(members, q, p) }

  /** A delete that has loaded its network and will still remove its bridge. */
  ghost predicate HasLoaded(p: Proc) { p.Delete? && (p.d.CheckEmpty? || p.d.MarkDeleting? || p.d.RemoveBridge?) }

  /** A create is about to store the bridge number of a network deleted while another delete of it is in flight. */
  ghost predicate TakesBack(networks: Networks, p: Proc, q: Proc) {
    p.Create? && p.c.InsertRow? && HasLoaded(q) && q.d.network !in networks && q.d.bridge == p.c.bridge
  }

  ghost predicate NoneTakesBack(w: World) {
    forall p, q :: p in w.procs && q in w.procs ==> !TakesBack(w.db.networks, w.procs[p], w.procs[q])
  }

  ghost predicate NoneCollide(w: World) {
    forall p, q :: p in w.procs && q in w.procs && p != q ==> !Collide(w.db.members, w.procs[p], w.procs[q])
  }

  // --- One request's await spares the others -------------------------------------------------

  lemma InsertNetworkSpares(db: Db, host: Host, n: Network, q: Proc)
    requires TablesOk(db) && HostReady(db, host, q) && InsertNetwork(db, n).Some?
    requires HasLoaded(q) && q.d.network !in db.networks ==> q.d.bridge != n.bridge
    ensures HostReady(InsertNetwork(db, n).value, host, q)
  {
    hide MembersOk, ContainersOk, NoClash, AcceptedCidr, MembersOf;
    IdsIssued(db);
  }

  lemma CreateSpares(db: Db, host: Host, c: CreateProc, q: Proc, reply: Reply)
    requires TablesOk(db) && CreateReady(db.networks, host.bridges, c) && HostReady(db, host, q)
    requires !Collide(db.members, Create(c), q) && !(q.Create? && SameNetwork(db.members, Create(c), q))
    requires !TakesBack(db.networks, Create(c), q)
    ensures var o := StepCreate(db, host, c, reply); HostReady(o.db, o.host, q)
  {
    hide MembersOk, ContainersOk, NoClash, AcceptedCidr, OverlapsOwn, AsI32, Live, LiveOf, MembersOf, InsertNetwork;
    if c.InsertRow? {
      hide HostReady, TablesOk;
      var n := Network(c.owner, c.bridge, c.cidr, Creating);
      if InsertNetwork(db, n).Some? { InsertNetworkSpares(db, host, n, q); }
    }
  }

  lemma DeleteSpares(db: Db, host: Host, d: DeleteProc, q: Proc, reply: Reply)
    requires TablesOk(db) && DeleteReady(db.networks, db.members, db.issued, host.bridges, d) && HostReady(db, host, q)
    requires !Collide(db.members, Delete(d), q)
    ensures var o := StepDelete(db, host, d, reply); HostReady(o.db, o.host, q)
  {
    hide MembersOf, MembersOk, ContainersOk, NoClash, AcceptedCidr;
  }

  /** The row inserted is a new one, and takes no slot or membership that another request relies on. */
  lemma InsertSpares(db: Db, host: Host, m: Member, q: Proc)
    requires TablesOk(db) && HostReady(db, host, q) && InsertMember(db, m).Some?
    requires NetworkOf(db.members, q) == Some(m.network) ==> !q.Delete?
    requires MembershipOf(db.members, q) == Some((m.network, m.container)) ==> !q.Remove?
    ensures HostReady(InsertMember(db, m).value, host, q)
  {
    hide AcceptedCidr, AddressInRange, NoClash, ContainersOk, Clash;
  }

  lemma SetMemberSpares(db: Db, host: Host, id: Id, state: MemberState, q: Proc)
    requires HostReady(db, host, q)
    requires id in db.members && q.Remove? ==> MembershipOf(db.members, q) != RowKey(db.members, id)
    ensures HostReady(SetMemberState(db, id, state), host, q)
  {
  }

  lemma AttachSpares(db: Db, host: Host, id: Id, bridge: int, q: Proc)
    requires TablesOk(db) && HostReady(db, host, q) && id in db.members
    requires q.Remove? ==> MembershipOf(db.members, q) != RowKey(db.members, id)
    requires db.members[id].container in db.containers
    ensures HostReady(db, host.(nics := host.nics[SlotKey(db.containers, db.members[id]) := bridge]), q)
  {
    hide AcceptedCidr, AddressInRange, NetworksOk;
  }

  lemma DetachSpares(db: Db, host: Host, id: Id, q: Proc)
    requires TablesOk(db) && HostReady(db, host, q) && id in db.members
    requires q.Add? ==> MembershipOf(db.members, q) != RowKey(db.members, id)
    requires db.members[id].container in db.containers
    ensures HostReady(db, host.(nics := host.nics - {SlotKey(db.containers, db.members[id])}), q)
  {
    hide AcceptedCidr, AddressInRange, NetworksOk;
  }

  lemma DropSpares(db: Db, host: Host, network: Id, container: Id, q: Proc)
    requires HostReady(db, host, q)
    requires q.Add? || q.Remove? ==> MembershipOf(db.members, q) != Some((network, container))
    ensures HostReady(DeleteMemberRow(db, network, container), host, q)
  {
  }

  lemma AddSpares(db: Db, host: Host, a: AddProc, q: Proc, reply: Reply)
    requires TablesOk(db) && AddReady(db, host.nics, a) && HostReady(db, host, q) && !Collide(db.members, Add(a), q)
    ensures var o := StepAdd(db, host, a, reply); HostReady(o.db, o.host, q)
  {
    hide TablesOk, HostReady, InsertMember, SetMemberState, PrintAddress, LowestFreeAddress, UsedIn, UsedSlots, LowestFree;
    match a
    case InsertMembership(net, ctid, ip, slot) =>
      var m := Member(net.network, net.container, PrintAddress(ip), slot, Attaching);
      if InsertMember(db, m).Some? { InsertSpares(db, host, m, q); }
    case Attach(member, _, _, bridge) => AttachSpares(db, host, member, bridge, q);
    case MarkAttachFailed(member) => SetMemberSpares(db, host, member, MemberState.Failed, q);
    case MarkActive(member) => SetMemberSpares(db, host, member, MemberState.Active, q);
    case _ =>
  }

  lemma RemoveSpares(db: Db, host: Host, r: RemoveProc, q: Proc, reply: Reply)
    requires TablesOk(db) && RemoveReady(db.members, db.containers, host.nics, r) && HostReady(db, host, q)
    requires !Collide(db.members, Remove(r), q)
    ensures var o := StepRemove(db, host, r, reply); HostReady(o.db, o.host, q)
  {
    hide TablesOk, HostReady, Pick, SetMemberState, DeleteMemberRow;
    match r
    case MarkDetaching(member, _, _) => SetMemberSpares(db, host, member, Detaching, q);
    case Detach(member, _, _) => DetachSpares(db, host, member, q);
    case MarkDetachFailed(member) => SetMemberSpares(db, host, member, MemberState.Failed, q);
    case DropMembership(network, container) => DropSpares(db, host, network, container, q);
    case _ =>
  }

  lemma StepSpares(db: Db, host: Host, p: Proc, q: Proc, reply: Reply)
    requires TablesOk(db) && HostReady(db, host, p) && HostReady(db, host, q)
    requires !Collide(db.members, p, q) && !(p.Create? && q.Create? && SameNetwork(db.members, p, q))
    requires !TakesBack(db.networks, p, q)
    ensures var o := Step(db, host, p, reply); HostReady(o.db, o.host, q)
  {
    hide TablesOk, Collide, SameNetwork, StepCreate, StepDelete, StepAdd, StepRemove;
    hide CreateReady, DeleteReady, AddReady, RemoveReady;
    match p
    case Create(c) => CreateSpares(db, host, c, q, reply);
    case Delete(d) => DeleteSpares(db, host, d, q, reply);
    case Add(a) => AddSpares(db, host, a, q, reply);
    case Remove(r) => RemoveSpares(db, host, r, q, reply);
  }

  // --- Every interleaving without collisions ---------------------------------------------------

  /** Two creates in flight never have the same network. */
  ghost predicate CreatesApart(procs: map<nat, Proc>, issued: nat) {
    && (forall p :: p in procs && Inserted(procs[p]) ==> procs[p].c.network < issued)
    && (forall p, q :: p in procs && q in procs && p != q && Inserted(procs[p]) && Inserted(procs[q]) ==>
          procs[p].c.network != procs[q].c.network)
  }

  ghost predicate Inserted(p: Proc) { p.Create? && (p.c.MakeBridge? || p.c.Activate?) }

  ghost predicate ProcsReady(w: World) { forall pid :: pid in w.procs ==> HostReady(w.db, w.host, w.procs[pid]) }

  ghost predicate Matched(w: World) {
    WorldOk(w) && HostMatches(w.db, w.host) && CreatesApart(w.procs, w.db.issued) && ProcsReady(w)
  }

  lemma NextInserted(db: Db, host: Host, p: Proc, reply: Reply)
    ensures var o := Step(db, host, p, reply);
            o.next.Continue? && Inserted(o.next.p) ==>
              if Inserted(p) then o.next.p.c.network == p.c.network else o.next.p.c.network == db.issued < o.db.issued
    ensures db.issued <= Step(db, host, p, reply).db.issued
  {
    hide OverlapsOwn, AsI32, Live, LiveOf, PrintAddress, LowestFreeAddress, MembersOf, UsedIn, UsedSlots, LowestFree, Pick, Clash;
  }

  lemma ActKeepsApart(w: World, pid: nat, reply: Reply)
    requires CreatesApart(w.procs, w.db.issued) && pid in w.procs
    ensures var after := Apply(w, Act(pid, reply)); CreatesApart(after.procs, after.db.issued)
  {
    hide Step;
    NextInserted(w.db, w.host, w.procs[pid], reply);
  }

  lemma ActKeepsReady(w: World, pid: nat, reply: Reply)
    requires Matched(w) && NoneCollide(w) && NoneTakesBack(w) && pid in w.procs
    ensures ProcsReady(Apply(w, Act(pid, reply))) && HostMatches(Apply(w, Act(pid, reply)).db, Apply(w, Act(pid, reply)).host)
  {
    hide TablesOk, HostMatches, HostReady, Step, StaleOk, Disturbs, TakesBack;
    HostStep(w.db, w.host, w.procs[pid], reply);
    forall q | q in w.procs && q != pid
      ensures var o := Step(w.db, w.host, w.procs[pid], reply); HostReady(o.db, o.host, w.procs[q])
    {
      assert !Disturbs(w.db.members, w.procs[pid], w.procs[q]) && !Disturbs(w.db.members, w.procs[q], w.procs[pid]);
      StepSpares(w.db, w.host, w.procs[pid], w.procs[q], reply);
    }
  }

  lemma ContainerKeepsMatched(w: World, ctid: int)
    requires Matched(w)
    ensures Matched(Apply(w, NewContainer(ctid)))
  {
    hide TablesOk, HostMatches, HostReady, StaleOk, Extends;
    ApplyKeepsWorld(w, NewContainer(ctid));
    if Apply(w, NewContainer(ctid)) != w {
      ContainerKeepsHost(w.db, w.host, ctid);
      forall pid | pid in w.procs
        ensures HostReady(AddContainer(w.db, ctid), w.host, w.procs[pid])
      {
        ReadyWithContainer(w.db, w.host, w.procs[pid], ctid);
      }
    }
  }

  lemma ContainerKeepsHost(db: Db, host: Host, ctid: int)
    requires TablesOk(db) && HostMatches(db, host)
    ensures HostMatches(AddContainer(db, ctid), host)
  {
    hide TablesOk, BridgesHaveRows, ActiveHaveBridges, NicsHaveRows, MembersAreLive;
    NewIdIsFresh(db);
    NicsStand(db, AddContainer(db, ctid), host.nics);
  }

  lemma NewIdIsFresh(db: Db)
    requires TablesOk(db)
    ensures db.issued !in db.networks && db.issued !in db.members && db.issued !in db.containers
  {
    hide AcceptedCidr, AddressInRange, NoClash;
  }

  lemma ReadyWithContainer(db: Db, host: Host, p: Proc, ctid: int)
    requires TablesOk(db) && HostReady(db, host, p)
    ensures HostReady(AddContainer(db, ctid), host, p)
  {
    hide TablesOk, CreateReady, MembersOf, LoadedLive;
    NewIdIsFresh(db);
  }

  lemma BeginKeepsMatched(w: World, req: Request)
    requires Matched(w)
    ensures Matched(Apply(w, Begin(req)))
  {
    hide TablesOk, HostMatches, Extends, StaleOk, HostReady;
    ApplyKeepsWorld(w, Begin(req));
    StartIsReady(w.db, w.host, req);
  }

  lemma StartIsReady(db: Db, host: Host, req: Request)
    ensures Start(req).Continue? ==> HostReady(db, host, Start(req).p) && !Inserted(Start(req).p) && !HasLoaded(Start(req).p)
  {
  }

  lemma ApplyKeepsMatched(w: World, e: Event)
    requires Matched(w) && (e.Act? ==> NoneCollide(w) && NoneTakesBack(w))
    ensures Matched(Apply(w, e))
  {
    hide TablesOk, HostMatches, HostReady, Step, StaleOk, NoneCollide, NoneTakesBack, Extends, CreatesApart;
    match e
    case Begin(req) => BeginKeepsMatched(w, req);
    case Act(pid, reply) =>
      ApplyKeepsWorld(w, e);
      if pid in w.procs {
        ActKeepsApart(w, pid, reply);
        ActKeepsReady(w, pid, reply);
      }
    case Drop(pid) =>
      ApplyKeepsWorld(w, e);
      FewerApart(w.procs, pid, w.db.issued);
    case NewContainer(ctid) => ContainerKeepsMatched(w, ctid);
  }

  lemma FewerApart(procs: map<nat, Proc>, pid: nat, issued: nat)
    requires CreatesApart(procs, issued)
    ensures CreatesApart(procs - {pid}, issued)
  {
  }

  /** Whenever a request's await ends, no two requests in flight collide. */
  ghost predicate CollisionFree(es: seq<Event>) { forall i :: 0 <= i < |es| && es[i].Act? ==> NoneCollide(Run(INIT, es[..i])) }

  // --- Two deletes of one network ----------------------------------------------------------------

  ghost predicate DeletesMeet(p: Proc, q: Proc) { p.Delete? && q.Delete? && p.d.network == q.d.network }

  ghost predicate NoDeletesMeet(procs: map<nat, Proc>) {
    forall p, q :: p in procs && q in procs && p != q ==> !DeletesMeet(procs[p], procs[q])
  }

  /** Whenever a request's await ends, no two deletes of one network are in flight. */
  ghost predicate DeletesApart(es: seq<Event>) {
    forall i :: 0 <= i < |es| && es[i].Act? ==> NoDeletesMeet(Run(INIT, es[..i]).procs)
  }

  lemma NextLoaded(db: Db, host: Host, p: Proc, reply: Reply)
    ensures var o := Step(db, host, p, reply);
            o.next.Continue? && HasLoaded(o.next.p) ==>
              && p.Delete? && o.next.p.d.network == p.d.network && o.db.networks.Keys == db.networks.Keys
              && (if p.d.Load? then IsNetwork(db.networks, p.d.network, o.next.p.d.bridge)
                  else HasLoaded(p) && o.next.p.d.bridge == p.d.bridge)
  {
    hide OverlapsOwn, AsI32, Live, LiveOf, PrintAddress, LowestFreeAddress, MembersOf, UsedIn, UsedSlots, LowestFree, Pick, Clash;
  }

  ghost predicate LoadedPresent(networks: Networks, procs: map<nat, Proc>) {
    forall p :: p in procs && HasLoaded(procs[p]) ==> procs[p].d.network in networks
  }

  lemma ActKeepsPresent(w: World, pid: nat, reply: Reply)
    requires TablesOk(w.db) && LoadedPresent(w.db.networks, w.procs) && NoDeletesMeet(w.procs) && pid in w.procs
    ensures var after := Apply(w, Act(pid, reply)); LoadedPresent(after.db.networks, after.procs)
  {
    hide Step, TablesOk;
    StepChangesRows(w.db, w.host, w.procs[pid], reply);
    NextLoaded(w.db, w.host, w.procs[pid], reply);
    assert forall q :: q in w.procs && q != pid ==> !DeletesMeet(w.procs[q], w.procs[pid]);
  }

  lemma OthersKeepLoaded(w: World, e: Event)
    requires !e.Act? || e.pid !in w.procs
    ensures Apply(w, e).db.networks == w.db.networks
    ensures forall p :: p in Apply(w, e).procs && HasLoaded(Apply(w, e).procs[p]) ==> p in w.procs && w.procs[p] == Apply(w, e).procs[p]
  {
    if e.Begin? { StartIsReady(w.db, w.host, e.req); }
  }

  lemma {:induction false} RunPresent(es: seq<Event>)
    requires DeletesApart(es)
    ensures LoadedPresent(Run(INIT, es).db.networks, Run(INIT, es).procs)
  {
    hide Apply, NoDeletesMeet, WorldOk;
    if es != [] {
      var k := |es| - 1;
      assert forall i :: 0 <= i < k ==> es[..k][..i] == es[..i] && es[..k][i] == es[i];
      RunPresent(es[..k]);
      var w, e := Run(INIT, es[..k]), es[k];
      if e.Act? && e.pid in w.procs {
        InitOk();
        RunKeepsWorld(INIT, es[..k]);
        assert TablesOk(w.db) by { TablesOfWorld(w); }
        ActKeepsPresent(w, e.pid, e.reply);
      } else {
        OthersKeepLoaded(w, e);
      }
    }
  }

  lemma TablesOfWorld(w: World)
    requires WorldOk(w)
    ensures TablesOk(w.db)
  {
  }

  /** The number a delete has read is the one its network was stored under. */
  ghost predicate LoadedRecorded(procs: map<nat, Proc>, rows: map<Id, nat>) {
    forall p :: p in procs && HasLoaded(procs[p]) ==> procs[p].d.network in rows && procs[p].d.bridge == AsI32(rows[procs[p].d.network])
  }

  lemma ApplyKeepsRecorded(w: World, e: Event, v: Values)
    requires Valued(w, v) && LoadedRecorded(w.procs, v.rows)
    ensures LoadedRecorded(Apply(w, e).procs, Record(v, w, e).rows)
  {
    hide Step, AsI32, HeldValues, Draws;
    if e.Act? && e.pid in w.procs {
      NextLoaded(w.db, w.host, w.procs[e.pid], e.reply);
    } else {
      OthersKeepLoaded(w, e);
    }
  }

  lemma {:induction false} RunRecorded(es: seq<Event>)
    ensures LoadedRecorded(Run(INIT, es).procs, ValuesOf(es).rows)
  {
    hide Apply, Record, Valued, AsI32;
    if es != [] {
      var before := es[..|es| - 1];
      RunRecorded(before);
      RunValued(before);
      ApplyKeepsRecorded(Run(INIT, before), es[|es| - 1], ValuesOf(before));
    }
  }

  /** Up to 2^32 draws no number comes back, so no create takes back the number of a deleted network. */
  lemma NumbersStayTaken(es: seq<Event>)
    requires CountDraws(es) <= WRAP
    ensures NoneTakesBack(Run(INIT, es))
  {
    hide Run, AsI32, ValuesOf, CountDraws, RowValues;
    RunValued(es);
    RunRecorded(es);
    SequenceCountsDraws(es);
    var w, v := Run(INIT, es), ValuesOf(es);
    forall p, q | p in w.procs && q in w.procs && TakesBack(w.db.networks, w.procs[p], w.procs[q])
      ensures false
    {
      assert Holds(w.procs, p) && HasLoaded(w.procs[q]);
      RowValueBounds(w, v, w.procs[q].d.network);
      NearbyDiffer(v.held[p], v.rows[w.procs[q].d.network]);
    }
  }

  lemma RowValueBounds(w: World, v: Values, id: Id)
    requires Valued(w, v) && id in v.rows
    ensures FIRST_BRIDGE <= v.rows[id] < w.db.nextBridge
  {
  }

  /** Nothing is taken back as long as numbers do not repeat, or as no two deletes of one network overlap. */
  lemma NothingTakenBack(es: seq<Event>, i: nat)
    requires i <= |es| && (CountDraws(es) <= WRAP || DeletesApart(es))
    ensures NoneTakesBack(Run(INIT, es[..i]))
  {
    hide Run, CountDraws, NoDeletesMeet;
    if CountDraws(es) <= WRAP {
      CountGrows(es, i);
      NumbersStayTaken(es[..i]);
    } else {
      assert forall k :: 0 <= k < i ==> es[..i][..k] == es[..k] && es[..i][k] == es[k];
      RunPresent(es[..i]);
    }
  }

  lemma {:induction false} RunMatched(es: seq<Event>)
    requires CollisionFree(es)
    requires forall i :: 0 <= i < |es| ==> NoneTakesBack(Run(INIT, es[..i]))
    ensures Matched(Run(INIT, es))
  {
    hide Matched, Apply, NoneCollide, NoneTakesBack;
    if es == [] {
      InitMatched();
    } else {
      var k := |es| - 1;
      assert forall i :: 0 <= i < k ==> es[..k][..i] == es[..i] && es[..k][i] == es[i];
      RunMatched(es[..k]);
      ApplyKeepsMatched(Run(INIT, es[..k]), es[k]);
    }
  }

  lemma InitMatched()
    ensures Matched(INIT)
  {
  }

  /**
   * Crash consistency. In every interleaving without collisions, with requests stopped at any await and host calls that
   * fail with or without effect: a bridge on the host has its row, an active network has its bridge, an occupied NIC slot
   * has a membership row with that slot, the bridge under an attached NIC exists, and an active membership has its NIC.
   * Deletes of one network may overlap in runs of at most 2^32 draws, and must not in longer ones.
   */
  lemma CrashConsistency(es: seq<Event>)
    requires CollisionFree(es) && (CountDraws(es) <= WRAP || DeletesApart(es))
    ensures var w := Run(INIT, es); HostMatches(w.db, w.host)
    ensures var w := Run(INIT, es); forall key :: key in w.host.nics ==> w.host.nics[key] in w.host.bridges
  {
    hide Run, CountDraws, NoneTakesBack, DeletesApart, CollisionFree;
    forall i | 0 <= i < |es|
      ensures NoneTakesBack(Run(INIT, es[..i]))
    {
      NothingTakenBack(es, i);
    }
    RunMatched(es);
    NicsHaveBridges(Run(INIT, es).db, Run(INIT, es).host);
  }

  lemma NicsHaveBridges(db: Db, host: Host)
    requires HostMatches(db, host)
    ensures forall key :: key in host.nics ==> host.nics[key] in host.bridges
  {
    forall key | key in host.nics
      ensures host.nics[key] in host.bridges
    {
      assert HasRow(db, key, host.nics[key]);
      var id :| id in db.members && StandsFor(db.networks, db.containers, db.members[id], key, host.nics[key]);
      assert db.networks[db.members[id].network].state == NetworkState.Active;
    }
  }
}
