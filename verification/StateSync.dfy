/** Container states written by the lifecycle operations and by the reconciliation loop with its stale snapshot. */
module StateSync {
  import opened Basics

  type Id = nat

  datatype State = Provisioning | Running | Stopped | Failed

  datatype Runtime = IsRunning | IsStopped | Unknown

  datatype Container = Container(ctid: int, state: State)

  type Table = map<Id, Container>

  /** What the loop writes for a container it saw in `seen`, if anything. */
  function Decide(seen: State, actual: Runtime): Option<State> {
    match actual
    case Unknown => None
    case IsRunning => if seen.Running? || seen.Provisioning? then None else Some(Running)
    case IsStopped => if seen.Stopped? || seen.Provisioning? then None else Some(Stopped)
  }

  function SetState(t: Table, id: Id, state: State): Table {
    if id in t then t[id := t[id].(state := state)] else t
  }

  // --- Every interleaving -----------------------------------------------------------------

  /** History of a listing: how many writes there were, and which of them each row had last. */
  datatype Listing = Listing(at: nat, last: map<Id, nat>)

  /** `seen`, the listed state, is history too. */
  datatype Proc =
    | InsertNew(ctid: int)
    | FinishCreate(id: Id)
    | Load(id: Id, target: State)
    | FinishAction(id: Id, target: State)
    | List
    | Query(left: seq<(Id, Container)>, listing: Listing)
    | WriteBack(id: Id, state: State, left: seq<(Id, Container)>, listing: Listing, seen: State)

  /**
   * History of writes: an insert, a write by an operation, or one by the loop, with the listing it was decided on, the
   * state listed and the write that had put it there, and the state replaced and the write that had put that there.
   */
  datatype Write =
    | Inserted(id: Id, after: State)
    | ByAction(id: Id, after: State)
    | ByLoop(id: Id, after: State, listedAt: nat, seen: State, seenBy: nat, before: State, replaced: nat)

  /** `writer` is the last write to each row. */
  datatype World = World(table: Table, procs: map<nat, Proc>, next: nat, log: seq<Write>, writer: map<Id, nat>)

  const INIT: World := World(map[], map[], 0, [], map[])

  /**
   * `Act` answers the await a process stands at: `snapshot` is the order rows are listed in, `confirmed` whether the poll saw
   * the wanted state, `status` what the host reported, and `acted` whether a failing statement took effect.
   */
  datatype Event =
    | Create(ctid: int)
    | StartOrRestart(id: Id)
    | Stop(id: Id)
    | Sync
    | Act(pid: nat, snapshot: seq<Id>, confirmed: bool, status: Option<Runtime>, reply: Reply)
    | Drop(pid: nat)

  /** Every row exactly once. */
  predicate ListsAll(t: Table, ids: seq<Id>) {
    && (forall i :: 0 <= i < |ids| ==> ids[i] in t) && (forall id :: id in t ==> id in ids)
    && (forall i, j :: 0 <= i < j < |ids| ==> ids[i] != ids[j])
  }

  function Rows(t: Table, ids: seq<Id>): seq<(Id, Container)>
    requires ListsAll(t, ids)
  {
    seq(|ids|, i requires 0 <= i < |ids| => (ids[i], t[ids[i]]))
  }

  function Spawn(w: World, p: Proc): World { w.(procs := w.procs[w.next := p], next := w.next + 1) }

  function End(w: World, pid: nat): World { w.(procs := w.procs - {pid}) }

  function Goto(w: World, pid: nat, p: Proc): World { w.(procs := w.procs[pid := p]) }

  function Logged(w: World, write: Write): World {
    w.(log := w.log + [write], writer := w.writer[write.id := |w.log|])
  }

  /** A write by an operation. */
  function Update(w: World, id: Id, state: State, reply: Reply): World {
    if reply == Fail(false) || id !in w.table then w
    else Logged(w.(table := SetState(w.table, id, state)), ByAction(id, state))
  }

  /** A write by the loop; the two history lookups always succeed (`HistoryOk`). */
  function Sweep(w: World, p: Proc, reply: Reply): World
    requires p.WriteBack?
  {
    if reply == Fail(false) || p.id !in w.table || p.id !in w.writer || p.id !in p.listing.last then w
    else Logged(w.(table := SetState(w.table, p.id, p.state)),
                ByLoop(p.id, p.state, p.listing.at, p.seen, p.listing.last[p.id], w.table[p.id].state, w.writer[p.id]))
  }

  function Insert(w: World, ctid: int): World {
    Logged(w.(table := w.table[w.next := Container(ctid, Provisioning)], next := w.next + 1), Inserted(w.next, Provisioning))
  }

  function ActOn(w: World, pid: nat, e: Event): World
    requires e.Act? && pid in w.procs
  {
    match w.procs[pid]
    case InsertNew(ctid) =>
      if e.reply == Fail(false) then End(w, pid)
      else if e.reply.Done? then Goto(Insert(w, ctid), pid, FinishCreate(w.next))
      else End(Insert(w, ctid), pid)
    case FinishCreate(id) => End(Update(w, id, if e.confirmed then Running else Failed, e.reply), pid)
    case Load(id, target) =>
      if e.reply.Fail? || id !in w.table then End(w, pid) else Goto(w, pid, FinishAction(id, target))
    case FinishAction(id, target) => End(Update(w, id, if e.confirmed then target else Failed, e.reply), pid)
    case List =>
      if e.reply.Fail? || !ListsAll(w.table, e.snapshot) then End(w, pid)
      else Goto(w, pid, Query(Rows(w.table, e.snapshot), Listing(|w.log|, w.writer)))
    case Query(left, listing) =>
      if left == [] then End(w, pid)
      else if e.status.None? then Goto(w, pid, Query(left[1..], listing))
      else (match Decide(left[0].1.state, e.status.value)
            case None => Goto(w, pid, Query(left[1..], listing))
            case Some(state) => Goto(w, pid, WriteBack(left[0].0, state, left[1..], listing, left[0].1.state)))
    case WriteBack(_, _, left, listing, _) => Goto(Sweep(w, w.procs[pid], e.reply), pid, Query(left, listing))
  }

  function Apply(w: World, e: Event): World {
    match e
    case Create(ctid) => Spawn(w, InsertNew(ctid))
    case StartOrRestart(id) => Spawn(w, Load(id, Running))
    case Stop(id) => Spawn(w, Load(id, Stopped))
    case Sync => Spawn(w, List)
    case Act(pid, _, _, _, _) => if pid in w.procs then ActOn(w, pid, e) else w
    case Drop(pid) => End(w, pid)
  }

  function Run(w: World, es: seq<Event>): World {
    if es == [] then w else Apply(Run(w, es[..|es| - 1]), es[|es| - 1])
  }

  ghost predicate Settled(t: Table, id: Id) { id in t && !t[id].state.Provisioning? }

  /** Rows seen out of provisioning are so still. */
  ghost predicate SeenOk(t: Table, rows: seq<(Id, Container)>) {
    forall i :: 0 <= i < |rows| && !rows[i].1.state.Provisioning? ==> Settled(t, rows[i].0)
  }

  ghost predicate ProcOk(t: Table, p: Proc) {
    match p
    case FinishAction(_, target) => !target.Provisioning?
    case Load(_, target) => !target.Provisioning?
    case Query(left, _) => SeenOk(t, left)
    case WriteBack(id, state, left, _, _) => Settled(t, id) && !state.Provisioning? && SeenOk(t, left)
    case _ => true
  }

  ghost predicate WorldOk(w: World) {
    && (forall id :: id in w.table ==> id < w.next)
    && (forall p :: p in w.procs ==> p < w.next && ProcOk(w.table, w.procs[p]))
    && (forall i :: 0 <= i < |w.log| && w.log[i].ByLoop? ==> !w.log[i].before.Provisioning?)
  }

  /** Rows stay and never return to provisioning. */
  ghost predicate Extends(t: Table, after: Table) {
    forall id :: id in t ==>
      id in after && after[id].ctid == t[id].ctid && (after[id].state.Provisioning? ==> t[id].state.Provisioning?)
  }

  lemma ProcStays(t: Table, after: Table, p: Proc)
    requires Extends(t, after) && ProcOk(t, p)
    ensures ProcOk(after, p)
  {
  }

  lemma ActExtends(w: World, pid: nat, e: Event)
    requires WorldOk(w) && pid in w.procs && e.Act?
    ensures Extends(w.table, ActOn(w, pid, e).table)
  {
    hide Decide, SeenOk, Rows, ListsAll;
    assert ProcOk(w.table, w.procs[pid]);
  }

  lemma ActOk(w: World, pid: nat, e: Event)
    requires WorldOk(w) && pid in w.procs && e.Act?
    ensures WorldOk(ActOn(w, pid, e))
  {
    hide Extends, Settled;
    ActExtends(w, pid, e);
    var after := ActOn(w, pid, e);
    assert ProcOk(w.table, w.procs[pid]);
    NextOk(w, pid, e);
    if w.procs[pid].WriteBack? { assert !w.table[w.procs[pid].id].state.Provisioning? by { SettledMeans(w.table, w.procs[pid].id); } }
    forall q | q in w.procs
      ensures ProcOk(after.table, w.procs[q])
    {
      ProcStays(w.table, after.table, w.procs[q]);
    }
  }

  lemma SettledMeans(t: Table, id: Id)
    requires Settled(t, id)
    ensures id in t && !t[id].state.Provisioning?
  {
  }

  lemma NextOk(w: World, pid: nat, e: Event)
    requires WorldOk(w) && pid in w.procs && e.Act?
    ensures var after := ActOn(w, pid, e); pid in after.procs ==> ProcOk(after.table, after.procs[pid])
  {
    hide Extends;
    ActExtends(w, pid, e);
    assert ProcOk(w.table, w.procs[pid]);
    ProcStays(w.table, ActOn(w, pid, e).table, w.procs[pid]);
  }

  lemma ApplyOk(w: World, e: Event)
    requires WorldOk(w)
    ensures WorldOk(Apply(w, e)) && Extends(w.table, Apply(w, e).table)
  {
    hide ActOn, SeenOk;
    if e.Act? && e.pid in w.procs {
      ActOk(w, e.pid, e);
      ActExtends(w, e.pid, e);
    }
  }

  lemma {:induction false} RunOk(w: World, es: seq<Event>)
    requires WorldOk(w)
    ensures WorldOk(Run(w, es)) && Extends(w.table, Run(w, es).table)
  {
    hide WorldOk, Apply;
    if es != [] {
      RunOk(w, es[..|es| - 1]);
      ApplyOk(Run(w, es[..|es| - 1]), es[|es| - 1]);
    }
  }

  lemma InitOk()
    ensures WorldOk(INIT) && HistoryOk(INIT)
  {
  }

  /**
   * In every interleaving of creates, starts, stops, restarts and passes of the loop, no write of the loop replaces the
   * state of a container still provisioning, although the loop decides on a snapshot.
   */
  lemma SyncSparesProvisioning(es: seq<Event>, i: nat)
    requires i < |Run(INIT, es).log| && Run(INIT, es).log[i].ByLoop?
    ensures !Run(INIT, es).log[i].before.Provisioning?
  {
    hide Run;
    RunOk(INIT, es);
  }

  /** In every interleaving, a container that has left provisioning never returns to it, and rows keep their host number. */
  lemma NeverProvisioningAgain(es: seq<Event>, more: seq<Event>, id: Id)
    requires id in Run(INIT, es).table
    ensures var now, later := Run(INIT, es).table, Run(Run(INIT, es), more).table;
            && id in later && later[id].ctid == now[id].ctid
            && (!now[id].state.Provisioning? ==> !later[id].state.Provisioning?)
  {
    hide Run, WorldOk;
    InitOk();
    RunOk(INIT, es);
    RunOk(Run(INIT, es), more);
  }

  // --- What a write of the loop replaces -------------------------------------------------------

  /** Write k is the last to the row among the first n. */
  ghost predicate LastWrite(log: seq<Write>, n: nat, id: Id, k: nat) {
    k < n <= |log| && log[k].id == id && forall j :: k < j < n ==> log[j].id != id
  }

  /** Write k is the last to the row among the first n and put this state there. */
  ghost predicate LastPut(log: seq<Write>, n: nat, id: Id, k: nat, state: State) {
    LastWrite(log, n, id, k) && log[k].after == state
  }

  /** The table is what the log says. */
  ghost predicate WritersOk(table: Table, log: seq<Write>, writer: map<Id, nat>) {
    forall id :: id in table ==> id in writer && LastPut(log, |log|, id, writer[id], table[id].state)
  }

  ghost predicate ListedOk(log: seq<Write>, listing: Listing, id: Id, state: State) {
    listing.at <= |log| && id in listing.last && LastPut(log, listing.at, id, listing.last[id], state)
  }

  ghost predicate ListingOk(log: seq<Write>, listing: Listing, left: seq<(Id, Container)>) {
    forall i :: 0 <= i < |left| ==> ListedOk(log, listing, left[i].0, left[i].1.state)
  }

  ghost predicate PassOk(log: seq<Write>, p: Proc) {
    match p
    case Query(left, listing) => ListingOk(log, listing, left)
    case WriteBack(id, _, left, listing, seen) => ListingOk(log, listing, left) && ListedOk(log, listing, id, seen)
    case _ => true
  }

  ghost predicate WriteOk(log: seq<Write>, i: nat, write: Write) {
    write.ByLoop? ==>
      && write.listedAt <= i
      && LastPut(log, write.listedAt, write.id, write.seenBy, write.seen)
      && LastPut(log, i, write.id, write.replaced, write.before)
  }

  ghost predicate LogOk(log: seq<Write>) { forall i :: 0 <= i < |log| ==> WriteOk(log, i, log[i]) }

  ghost predicate HistoryOk(w: World) {
    && WritersOk(w.table, w.log, w.writer) && LogOk(w.log)
    && (forall p :: p in w.procs ==> PassOk(w.log, w.procs[p]))
  }

  lemma LastPutStays(log: seq<Write>, write: Write, n: nat, id: Id, k: nat, state: State)
    requires LastPut(log, n, id, k, state)
    ensures LastPut(log + [write], n, id, k, state)
  {
  }

  lemma PassStays(log: seq<Write>, write: Write, p: Proc)
    requires PassOk(log, p)
    ensures PassOk(log + [write], p)
  {
    hide LastPut;
    forall n, id, k, state | LastPut(log, n, id, k, state)
      ensures LastPut(log + [write], n, id, k, state)
    {
      LastPutStays(log, write, n, id, k, state);
    }
  }

  lemma LogStays(log: seq<Write>, write: Write)
    requires LogOk(log) && WriteOk(log, |log|, write)
    ensures LogOk(log + [write])
  {
    hide LastPut;
    forall n, id, k, state | LastPut(log, n, id, k, state)
      ensures LastPut(log + [write], n, id, k, state)
    {
      LastPutStays(log, write, n, id, k, state);
    }
  }

  lemma WritersStay(w: World, table: Table, write: Write)
    requires WritersOk(w.table, w.log, w.writer) && write.id in table && write.after == table[write.id].state
    requires forall id :: id in table && id != write.id ==> id in w.table && table[id].state == w.table[id].state
    ensures var after := Logged(w.(table := table), write); WritersOk(after.table, after.log, after.writer)
  {
  }

  /** Logging one write, after which every pass still knows what it listed. */
  lemma LoggedOk(w: World, table: Table, write: Write)
    requires HistoryOk(w) && write.id in table && write.after == table[write.id].state && WriteOk(w.log, |w.log|, write)
    requires forall id :: id in table && id != write.id ==> id in w.table && table[id].state == w.table[id].state
    ensures HistoryOk(Logged(w.(table := table), write))
  {
    hide WritersOk, LogOk, PassOk, WriteOk;
    WritersStay(w, table, write);
    LogStays(w.log, write);
    forall p | p in w.procs
      ensures PassOk(w.log + [write], w.procs[p])
    {
      PassStays(w.log, write, w.procs[p]);
    }
  }

  lemma InsertKeepsHistory(w: World, ctid: int)
    requires HistoryOk(w)
    ensures HistoryOk(Insert(w, ctid))
  {
    hide HistoryOk;
    var w1 := w.(next := w.next + 1);
    NextDoesNotMatter(w);
    LoggedOk(w1, w.table[w.next := Container(ctid, Provisioning)], Inserted(w.next, Provisioning));
  }

  lemma NextDoesNotMatter(w: World)
    requires HistoryOk(w)
    ensures HistoryOk(w.(next := w.next + 1))
  {
  }

  lemma UpdateKeepsHistory(w: World, id: Id, state: State, reply: Reply)
    requires HistoryOk(w)
    ensures HistoryOk(Update(w, id, state, reply))
  {
    hide HistoryOk;
    if id in w.table { LoggedOk(w, SetState(w.table, id, state), ByAction(id, state)); }
  }

  lemma SweepKeepsHistory(w: World, p: Proc, reply: Reply)
    requires HistoryOk(w) && p.WriteBack? && PassOk(w.log, p)
    ensures HistoryOk(Sweep(w, p, reply))
  {
    hide HistoryOk, LastPut, ListingOk;
    assert WritersOk(w.table, w.log, w.writer) by { HistoryWriters(w); }
    if p.id in w.table && p.id in w.writer && p.id in p.listing.last {
      LoggedOk(w, SetState(w.table, p.id, p.state),
        ByLoop(p.id, p.state, p.listing.at, p.seen, p.listing.last[p.id], w.table[p.id].state, w.writer[p.id]));
    }
  }

  lemma HistoryWriters(w: World)
    requires HistoryOk(w)
    ensures WritersOk(w.table, w.log, w.writer) && forall p :: p in w.procs ==> PassOk(w.log, w.procs[p])
  {
  }

  lemma MoveKeepsHistory(w: World, pid: nat, p: Proc)
    requires HistoryOk(w) && PassOk(w.log, p)
    ensures HistoryOk(Goto(w, pid, p)) && HistoryOk(End(w, pid))
  {
    hide WritersOk, LogOk, PassOk;
  }

  lemma ListsItsRows(w: World, ids: seq<Id>)
    requires WritersOk(w.table, w.log, w.writer) && ListsAll(w.table, ids)
    ensures PassOk(w.log, Query(Rows(w.table, ids), Listing(|w.log|, w.writer)))
  {
    hide LastPut;
  }

  lemma ActKeepsHistory(w: World, pid: nat, e: Event)
    requires HistoryOk(w) && pid in w.procs && e.Act?
    ensures HistoryOk(ActOn(w, pid, e))
  {
    hide HistoryOk, ListedOk, Decide, Sweep, Update, Insert, ListsAll, Rows;
    HistoryWriters(w);
    var p := w.procs[pid];
    MoveKeepsHistory(w, pid, List);
    match p
    case InsertNew(ctid) =>
      InsertKeepsHistory(w, ctid);
      MoveKeepsHistory(Insert(w, ctid), pid, FinishCreate(w.next));
    case FinishCreate(id) =>
      var state := if e.confirmed then Running else Failed;
      UpdateKeepsHistory(w, id, state, e.reply);
      MoveKeepsHistory(Update(w, id, state, e.reply), pid, List);
    case Load(id, target) => MoveKeepsHistory(w, pid, FinishAction(id, target));
    case FinishAction(id, target) =>
      var state := if e.confirmed then target else Failed;
      UpdateKeepsHistory(w, id, state, e.reply);
      MoveKeepsHistory(Update(w, id, state, e.reply), pid, List);
    case List =>
      if ListsAll(w.table, e.snapshot) {
        ListsItsRows(w, e.snapshot);
        MoveKeepsHistory(w, pid, Query(Rows(w.table, e.snapshot), Listing(|w.log|, w.writer)));
      }
    case Query(left, listing) =>
      if left != [] {
        assert ListedOk(w.log, listing, left[0].0, left[0].1.state) && ListingOk(w.log, listing, left[1..]);
        MoveKeepsHistory(w, pid, Query(left[1..], listing));
        forall state
          ensures HistoryOk(Goto(w, pid, WriteBack(left[0].0, state, left[1..], listing, left[0].1.state)))
        {
          MoveKeepsHistory(w, pid, WriteBack(left[0].0, state, left[1..], listing, left[0].1.state));
        }
      }
    case WriteBack(_, _, left, listing, _) =>
      SweepKeepsHistory(w, p, e.reply);
      var after := Sweep(w, p, e.reply);
      assert after.procs == w.procs by { SweepKeepsProcs(w, p, e.reply); }
      HistoryWriters(after);
      MoveKeepsHistory(after, pid, Query(left, listing));
  }

  lemma SweepKeepsProcs(w: World, p: Proc, reply: Reply)
    requires p.WriteBack?
    ensures Sweep(w, p, reply).procs == w.procs
  {
  }

  lemma ApplyKeepsHistory(w: World, e: Event)
    requires HistoryOk(w)
    ensures HistoryOk(Apply(w, e))
  {
    hide ActOn, WritersOk, LogOk;
    if e.Act? && e.pid in w.procs { ActKeepsHistory(w, e.pid, e); }
  }

  lemma {:induction false} RunHistoryFrom(w: World, es: seq<Event>)
    requires HistoryOk(w)
    ensures HistoryOk(Run(w, es))
  {
    hide HistoryOk, Apply;
    if es != [] {
      RunHistoryFrom(w, es[..|es| - 1]);
      ApplyKeepsHistory(Run(w, es[..|es| - 1]), es[|es| - 1]);
    }
  }

  lemma RunKeepsHistory(es: seq<Event>)
    ensures HistoryOk(Run(INIT, es))
  {
    hide HistoryOk, Run;
    InitOk();
    RunHistoryFrom(INIT, es);
  }

  /** Another write to the row lies between the listing and this one, and the last such put another state there. */
  ghost predicate Overtaken(log: seq<Write>, i: nat, w: Write, k: nat)
    requires w.ByLoop?
  {
    w.listedAt <= k < i && LastWrite(log, i, w.id, k) && log[k].after != w.seen
  }

  /**
   * In every interleaving, a write of the loop replaces exactly the write its pass listed if and only if no other write to
   * that row happened in between; and it replaces another state than the listed one if and only if the last of those put
   * another state there.
   */
  lemma LoopReplacesListedIffUntouched(es: seq<Event>, i: nat)
    requires i < |Run(INIT, es).log| && Run(INIT, es).log[i].ByLoop?
    ensures var log := Run(INIT, es).log; var w := log[i];
            && LastPut(log, w.listedAt, w.id, w.seenBy, w.seen) && LastPut(log, i, w.id, w.replaced, w.before)
            && (w.replaced == w.seenBy <==> forall k :: w.listedAt <= k < i ==> log[k].id != w.id)
            && (w.before != w.seen <==> exists k: nat :: Overtaken(log, i, w, k))
  {
    hide Run, WritersOk, PassOk;
    RunKeepsHistory(es);
    var log := Run(INIT, es).log;
    var w := log[i];
    assert WriteOk(log, i, w);
    if w.before != w.seen { assert Overtaken(log, i, w, w.replaced); }
  }

  // --- When nothing comes between, and when something does ------------------------------------------

  /** A request in flight that may write to the row: an operation on it, or a pass. */
  ghost predicate MayWrite(p: Proc, id: Id) {
    match p
    case InsertNew(_) => false
    case FinishCreate(r) => r == id
    case Load(r, _) => r == id
    case FinishAction(r, _) => r == id
    case _ => true
  }

  ghost predicate OnlyWriter(procs: map<nat, Proc>, pid: nat, id: Id) {
    forall q :: q in procs && q != pid ==> !MayWrite(procs[q], id)
  }

  ghost predicate InRows(rows: seq<(Id, Container)>, id: Id) { exists i :: 0 <= i < |rows| && rows[i].0 == id }

  ghost predicate Distinct(rows: seq<(Id, Container)>) { forall i, j :: 0 <= i < j < |rows| ==> rows[i].0 != rows[j].0 }

  ghost predicate PassDistinct(p: Proc) {
    match p
    case Query(left, _) => Distinct(left)
    case WriteBack(id, _, left, _, _) => Distinct(left) && !InRows(left, id)
    case _ => true
  }

  /** The pass still has to decide on the row, or to write to it. */
  ghost predicate Ahead(p: Proc, id: Id, listing: Listing) {
    match p
    case Query(left, l) => l == listing && InRows(left, id)
    case WriteBack(r, _, left, l, _) => l == listing && (r == id || InRows(left, id))
    case _ => false
  }

  /** As long as the row is ahead of the pass, its last write is the one listed. */
  ghost predicate Undisturbed(w: World, pid: nat, id: Id, listing: Listing) {
    && pid < w.next && id < w.next && id in listing.last
    && (pid in w.procs ==> !w.procs[pid].List? && PassDistinct(w.procs[pid])
                           && (Ahead(w.procs[pid], id, listing) ==> id in w.writer && w.writer[id] == listing.last[id]))
  }

  lemma OwnActUndisturbed(w: World, pid: nat, e: Event, id: Id, listing: Listing)
    requires Undisturbed(w, pid, id, listing) && e.Act? && pid in w.procs && (w.procs[pid].Query? || w.procs[pid].WriteBack?)
    ensures Undisturbed(ActOn(w, pid, e), pid, id, listing)
    ensures Passing(ActOn(w, pid, e), pid, w.procs[pid].listing)
  {
    hide Decide;
  }

  lemma OthersActUndisturbed(w: World, pid: nat, q: nat, e: Event, id: Id, listing: Listing)
    requires Undisturbed(w, pid, id, listing) && e.Act? && q in w.procs && q != pid && !MayWrite(w.procs[q], id)
    ensures Undisturbed(ActOn(w, q, e), pid, id, listing)
    ensures (pid in w.procs <==> pid in ActOn(w, q, e).procs) && (pid in w.procs ==> ActOn(w, q, e).procs[pid] == w.procs[pid])
  {
    hide PassDistinct, Ahead;
  }

  /** Still the same pass, if it has not ended. */
  ghost predicate Passing(w: World, pid: nat, listing: Listing) {
    pid in w.procs ==> (w.procs[pid].Query? || w.procs[pid].WriteBack?) && w.procs[pid].listing == listing
  }

  lemma ApplyUndisturbed(w: World, pid: nat, e: Event, id: Id, listing: Listing)
    requires WorldOk(w) && Undisturbed(w, pid, id, listing) && Passing(w, pid, listing)
    requires e.Act? ==> OnlyWriter(w.procs, pid, id)
    ensures Undisturbed(Apply(w, e), pid, id, listing) && Passing(Apply(w, e), pid, listing)
  {
    hide ActOn, PassDistinct, Ahead, ProcOk, MayWrite;
    if e.Act? && e.pid in w.procs {
      if e.pid == pid {
        OwnActUndisturbed(w, pid, e, id, listing);
      } else {
        OthersActUndisturbed(w, pid, e.pid, e, id, listing);
      }
    }
  }

  lemma {:induction false} RunUndisturbed(w: World, pid: nat, es: seq<Event>, id: Id, listing: Listing)
    requires WorldOk(w) && Undisturbed(w, pid, id, listing) && Passing(w, pid, listing)
    requires forall i :: 0 <= i < |es| && es[i].Act? ==> OnlyWriter(Run(w, es[..i]).procs, pid, id)
    ensures Undisturbed(Run(w, es), pid, id, listing) && Passing(Run(w, es), pid, listing)
  {
    hide WorldOk, Undisturbed, Passing, Apply, OnlyWriter;
    if es != [] {
      var k := |es| - 1;
      assert forall i :: 0 <= i < k ==> es[..k][..i] == es[..i] && es[..k][i] == es[i];
      RunUndisturbed(w, pid, es[..k], id, listing);
      RunOk(w, es[..k]);
      ApplyUndisturbed(Run(w, es[..k]), pid, es[k], id, listing);
    }
  }

  /** A pass that is about to list the rows. */
  ghost predicate StartsPass(w: World, e: Event) {
    e.Act? && e.pid in w.procs && w.procs[e.pid].List? && e.reply.Done? && ListsAll(w.table, e.snapshot)
  }

  lemma ListedUndisturbed(w: World, e: Event, id: Id)
    requires WorldOk(w) && HistoryOk(w) && StartsPass(w, e) && id in w.table
    ensures var listing := Listing(|w.log|, w.writer);
            Undisturbed(Apply(w, e), e.pid, id, listing) && Passing(Apply(w, e), e.pid, listing)
  {
    hide ProcOk, LogOk, PassOk, LastPut;
  }

  /** The pass stands at a write to the row. */
  ghost predicate WritesTo(w: World, e: Event, id: Id) {
    e.Act? && e.pid in w.procs && w.procs[e.pid].WriteBack? && w.procs[e.pid].id == id && e.reply != Fail(false)
  }

  lemma UndisturbedWrite(w: World, e: Event, id: Id, listing: Listing)
    requires WorldOk(w) && HistoryOk(w) && WritesTo(w, e, id) && Undisturbed(w, e.pid, id, listing) && Passing(w, e.pid, listing)
    ensures var p, after := w.procs[e.pid], Apply(w, e);
            after.log == w.log + [ByLoop(id, p.state, listing.at, p.seen, listing.last[id], p.seen, listing.last[id])]
  {
    hide LogOk, SeenOk, ListingOk;
    var p := w.procs[e.pid];
    assert ProcOk(w.table, p) && PassOk(w.log, p);
    assert ListedOk(w.log, listing, id, p.seen);
    assert LastPut(w.log, |w.log|, id, w.writer[id], w.table[id].state);
  }

  /**
   * If from a pass's list until its write to a row no operation on that row and no other pass is in flight whenever an await
   * ends, the write replaces the state listed, put there by the same write, whatever happens to other rows meanwhile.
   */
  lemma QuietRowReplacesListed(es: seq<Event>, list: Event, more: seq<Event>, write: Event, id: Id)
    requires StartsPass(Run(INIT, es), list) && id in Run(INIT, es).table
    requires var listed := Apply(Run(INIT, es), list);
             forall i :: 0 <= i < |more| && more[i].Act? ==> OnlyWriter(Run(listed, more[..i]).procs, list.pid, id)
    requires WritesTo(Run(Apply(Run(INIT, es), list), more), write, id) && write.pid == list.pid
    ensures var w := Run(INIT, es);
            var at := Run(Apply(w, list), more);
            var p := at.procs[write.pid];
            id in w.writer &&
            Apply(at, write).log == at.log + [ByLoop(id, p.state, |w.log|, p.seen, w.writer[id], p.seen, w.writer[id])]
  {
    hide Apply, WorldOk, HistoryOk, OnlyWriter, Undisturbed, Run, ListsAll;
    InitOk();
    RunOk(INIT, es);
    RunKeepsHistory(es);
    var w := Run(INIT, es);
    var listing := Listing(|w.log|, w.writer);
    ListedUndisturbed(w, list, id);
    HistoryWriters(w);
    ApplyOk(w, list);
    ApplyKeepsHistory(w, list);
    var listed := Apply(w, list);
    RunUndisturbed(listed, list.pid, more, id, listing);
    RunOk(listed, more);
    RunHistoryFrom(listed, more);
    UndisturbedWrite(Run(listed, more), write, id, listing);
  }

  /**
   * From every state in which the loop is about to write to a row and an operation is about to record its outcome for that
   * row, letting the operation finish first has the loop overwrite what it recorded, which is not the write it listed.
   */
  lemma FinishedActionIsOverwritten(w: World, p: nat, q: nat, e: Event, write: Event)
    requires HistoryOk(w) && p in w.procs && q in w.procs && w.procs[p].WriteBack? && w.procs[q].FinishAction?
    requires w.procs[p].id == w.procs[q].id && w.procs[p].id in w.table
    requires e.Act? && e.pid == q && e.reply != Fail(false) && write.Act? && write.pid == p && write.reply != Fail(false)
    ensures var back, op := w.procs[p], w.procs[q];
            var recorded := if e.confirmed then op.target else Failed;
            var done := Apply(w, e);
            var after := Apply(done, write);
            && done.table == w.table[back.id := w.table[back.id].(state := recorded)]
            && after.table == w.table[back.id := w.table[back.id].(state := back.state)]
            && back.id in back.listing.last && back.listing.last[back.id] < |w.log|
            && after.log == w.log + [ByAction(back.id, recorded)]
                 + [ByLoop(back.id, back.state, back.listing.at, back.seen, back.listing.last[back.id], recorded, |w.log|)]
  {
    hide LogOk, ListingOk, WritersOk;
    var back := w.procs[p];
    assert PassOk(w.log, back);
    assert ListedOk(w.log, back.listing, back.id, back.seen);
  }

  // --- A run in which the loop overwrites a newer state ------------------------------------------

  lemma RunSnoc(w: World, es: seq<Event>, e: Event)
    ensures Run(w, es + [e]) == Apply(Run(w, es), e)
  {
    hide Apply;
    assert (es + [e])[..|es|] == es;
  }

  /** A container whose creation was not confirmed is listed; the host reports it stopped; it is started meanwhile. */
  function StartDuringPass(): seq<Event> {
    [Create(7), Act(0, [], false, None, Done), Act(0, [], false, None, Done),
     Sync, Act(2, [1], false, None, Done), Act(2, [], false, Some(IsStopped), Done),
     StartOrRestart(1), Act(3, [], false, None, Done), Act(3, [], true, None, Done)]
  }

  lemma CreatedAsFailed()
    ensures Run(INIT, StartDuringPass()[..3]) ==
            World(map[1 := Container(7, Failed)], map[], 2, [Inserted(1, Provisioning), ByAction(1, Failed)], map[1 := 1])
  {
    hide Run, ListsAll, Rows, Sweep, Decide;
    var es := StartDuringPass();
    RunNone();
    assert es[..1] == [] + [es[0]] && es[..2] == es[..1] + [es[1]] && es[..3] == es[..2] + [es[2]];
    RunSnoc(INIT, [], es[0]);
    RunSnoc(INIT, es[..1], es[1]);
    RunSnoc(INIT, es[..2], es[2]);
    var w1 := World(map[], map[0 := InsertNew(7)], 1, [], map[]);
    assert Apply(INIT, es[0]) == w1;
    var w2 := World(map[1 := Container(7, Provisioning)], map[0 := FinishCreate(1)], 2, [Inserted(1, Provisioning)], map[1 := 0]);
    assert Apply(w1, es[1]) == w2;
    var w3 := Apply(w2, es[2]);
    assert w3.table == map[1 := Container(7, Failed)] && w3.procs == map[] && w3.writer == map[1 := 1];
  }

  lemma RunNone()
    ensures Run(INIT, []) == INIT
  {
  }

  const LISTED: Listing := Listing(2, map[1 := 1])

  lemma ListedAndDecided()
    ensures var w := Run(INIT, StartDuringPass()[..6]);
            && w.table == map[1 := Container(7, Failed)] && w.procs == map[2 := WriteBack(1, Stopped, [], LISTED, Failed)] && w.next == 3
            && w.log == [Inserted(1, Provisioning), ByAction(1, Failed)] && w.writer == map[1 := 1]
  {
    hide Run, Sweep, Update, Insert;
    var es := StartDuringPass();
    CreatedAsFailed();
    assert es[..4] == es[..3] + [es[3]] && es[..5] == es[..4] + [es[4]] && es[..6] == es[..5] + [es[5]];
    RunSnoc(INIT, es[..3], es[3]);
    RunSnoc(INIT, es[..4], es[4]);
    RunSnoc(INIT, es[..5], es[5]);
    var w4 := Run(INIT, es[..4]);
    assert w4.procs == map[2 := List];
    assert ListsAll(w4.table, [1]);
    var rows := [(1, Container(7, Failed))];
    assert Rows(w4.table, [1]) == rows;
    var w5 := Run(INIT, es[..5]);
    assert w5.procs == map[2 := Query(rows, LISTED)];
    assert rows[1..] == [];
  }

  /**
   * A run from the start in which a start is confirmed and recorded as running, and the loop's write, decided on its older
   * listing, then records the container as stopped.
   */
  lemma LoopOverwritesNewerState()
    ensures var started := Run(INIT, StartDuringPass());
            var after := Run(INIT, StartDuringPass() + [Act(2, [], false, None, Done)]);
            && started.table == map[1 := Container(7, Running)] && after.table == map[1 := Container(7, Stopped)]
            && after.log == started.log + [ByLoop(1, Stopped, 2, Failed, 1, Running, 2)]
  {
    hide Run, ListsAll, Rows, Insert, Decide;
    var es := StartDuringPass();
    ListedAndDecided();
    assert es[..7] == es[..6] + [es[6]] && es[..8] == es[..7] + [es[7]] && es == es[..8] + [es[8]];
    RunSnoc(INIT, es[..6], es[6]);
    RunSnoc(INIT, es[..7], es[7]);
    RunSnoc(INIT, es[..8], es[8]);
    RunSnoc(INIT, es, Act(2, [], false, None, Done));
    var back := WriteBack(1, Stopped, [], LISTED, Failed);
    var w7 := Run(INIT, es[..7]);
    assert w7.procs == map[2 := back, 3 := Load(1, Running)];
    var w8 := Run(INIT, es[..8]);
    assert w8.procs == map[2 := back, 3 := FinishAction(1, Running)];
    var w9 := Run(INIT, es);
    assert w9.procs == map[2 := back] && w9.table == map[1 := Container(7, Running)] && w9.writer == map[1 := 2];
  }

  // --- One pass against a quiet host ---------------------------------------------------------

  /** The host's answers during the pass: the status by host number, None for a failing query. */
  type Host = int -> Option<Runtime>

  /** The row disagrees with a known status and is not provisioning. */
  predicate OutOfDate(c: Container, host: Host) {
    && !c.state.Provisioning?
    && ((host(c.ctid) == Some(IsRunning) && !c.state.Running?) || (host(c.ctid) == Some(IsStopped) && !c.state.Stopped?))
  }

  function Stale(t: Table, host: Host): set<Id> { set id | id in t && OutOfDate(t[id], host) }

  function Corrected(c: Container, host: Host): Container {
    if OutOfDate(c, host) then c.(state := if host(c.ctid) == Some(IsRunning) then Running else Stopped) else c
  }

  /** Exactly the out-of-date rows take the host's state; everything else is as before. */
  ghost predicate Reconciled(t: Table, after: Table, host: Host) {
    && after.Keys == t.Keys
    && (forall id :: id in t && id !in Stale(t, host) ==> after[id] == t[id])
    && (forall id :: id in Stale(t, host) ==>
          after[id] == t[id].(state := if host(t[id].ctid) == Some(IsRunning) then Running else Stopped))
  }

  /** After a pass every container with a known status agrees with the host unless provisioning, and none is out of date. */
  lemma ReconciledAgrees(t: Table, after: Table, host: Host)
    requires Reconciled(t, after, host)
    ensures Stale(after, host) == {}
    ensures forall id :: id in after && !after[id].state.Provisioning? && host(after[id].ctid).Some? ==>
              (host(after[id].ctid) == Some(IsRunning) ==> after[id].state.Running?)
              && (host(after[id].ctid) == Some(IsStopped) ==> after[id].state.Stopped?)
    ensures forall later :: Reconciled(after, later, host) ==> later == after
  {
    assert forall id :: id in after ==> !OutOfDate(after[id], host);
  }

  /** The rows of `ids`, each once. */
  ghost predicate Lists(rows: seq<(Id, Container)>, t: Table, ids: set<Id>) {
    && (forall i :: 0 <= i < |rows| ==> rows[i].0 in ids && rows[i].0 in t && rows[i].1 == t[rows[i].0])
    && (forall i, j :: 0 <= i < j < |rows| ==> rows[i].0 != rows[j].0)
    && (forall id :: id in ids ==> Listed(rows, id))
  }

  ghost predicate Listed(rows: seq<(Id, Container)>, id: Id) { exists i :: 0 <= i < |rows| && rows[i].0 == id }

  lemma ListsMore(rows: seq<(Id, Container)>, t: Table, ids: set<Id>, id: Id)
    requires Lists(rows, t, ids) && id in t && id !in ids
    ensures Lists(rows + [(id, t[id])], t, ids + {id})
  {
    var more := rows + [(id, t[id])];
    assert more[|rows|].0 == id;
    forall k | k in ids
      ensures Listed(more, k)
    {
      assert Listed(rows, k);
      var i :| 0 <= i < |rows| && rows[i].0 == k;
      assert more[i].0 == k;
    }
  }

  /** The first `i` listed rows have been looked at and the out-of-date ones among them, `fixed`, corrected. */
  ghost predicate Progress(all: seq<(Id, Container)>, i: nat, now: Table, host: Host, fixed: set<Id>)
    requires i <= |all|
  {
    && (forall j :: 0 <= j < |all| ==> all[j].0 in now && now[all[j].0] == if j < i then Corrected(all[j].1, host) else all[j].1)
    && (forall j :: 0 <= j < |all| ==> (all[j].0 in fixed <==> j < i && OutOfDate(all[j].1, host)))
  }

  lemma PassEnds(t: Table, all: seq<(Id, Container)>, now: Table, host: Host, fixed: set<Id>)
    requires Lists(all, t, t.Keys) && now.Keys == t.Keys && fixed <= t.Keys && Progress(all, |all|, now, host, fixed)
    ensures Reconciled(t, now, host) && fixed == Stale(t, host)
  {
    forall id | id in t
      ensures now[id] == Corrected(t[id], host) && (id in fixed <==> OutOfDate(t[id], host))
    {
      assert Listed(all, id);
      var i :| 0 <= i < |all| && all[i].0 == id;
    }
  }

  lemma DecideCorrects(c: Container, host: Host)
    ensures host(c.ctid).None? ==> !OutOfDate(c, host)
    ensures host(c.ctid).Some? ==> var d := Decide(c.state, host(c.ctid).value);
              (d.Some? <==> OutOfDate(c, host)) && (d.Some? ==> c.(state := d.value) == Corrected(c, host))
  {
  }

  lemma ProgressOne(t: Table, all: seq<(Id, Container)>, i: nat, now: Table, host: Host, fixed: set<Id>)
    requires Lists(all, t, t.Keys) && i < |all| && Progress(all, i, now, host, fixed)
    ensures var (id, c) := all[i];
            if OutOfDate(c, host) then id !in fixed && Progress(all, i + 1, now[id := Corrected(c, host)], host, fixed + {id})
            else Progress(all, i + 1, now, host, fixed)
  {
    hide Listed, OutOfDate;
  }

  class ContainerRepo {
    var rows: map<Id, Container>

    constructor ()
      ensures rows == map[]
    {
      rows := map[];
    }

    /** All rows, each once, in some order. */
    method ListAll() returns (all: seq<(Id, Container)>)
      ensures Lists(all, rows, rows.Keys)
    {
      var left := rows.Keys;
      all := [];
      while left != {}
        invariant left <= rows.Keys && Lists(all, rows, rows.Keys - left)
        decreases left
      {
        var id :| id in left;
        ListsMore(all, rows, rows.Keys - left, id);
        assert rows.Keys - left + {id} == rows.Keys - (left - {id});
        left := left - {id};
        all := all + [(id, rows[id])];
      }
    }

    method UpdateState(id: Id, state: State, reply: Reply) returns (ok: bool)
      modifies this
      ensures rows == if reply == Fail(false) then old(rows) else SetState(old(rows), id, state)
      ensures ok == reply.Done?
    {
      if reply != Fail(false) && id in rows { rows := rows[id := rows[id].(state := state)]; }
      ok := reply.Done?;
    }
  }

  class Reconciler {
    const repo: ContainerRepo

    constructor (repo: ContainerRepo)
      ensures this.repo == repo
    {
      this.repo := repo;
    }

    /** One pass: list, then per row query, decide on the listed state and write; failing queries are skipped. */
    method SyncOnce(host: Host) returns (written: nat)
      modifies repo
      ensures Reconciled(old(repo.rows), repo.rows, host)
      ensures written == |Stale(old(repo.rows), host)|
    {
      hide Decide, OutOfDate, Corrected, Reconciled, Listed, Progress;
      written := 0;
      var all := repo.ListAll();
      ghost var start, fixed: set<Id> := repo.rows, {};
      assert Progress(all, 0, repo.rows, host, fixed) by { ProgressNone(start, all, host); }
      for i := 0 to |all|
        invariant repo.rows.Keys == start.Keys && fixed <= start.Keys && written == |fixed|
        invariant Progress(all, i, repo.rows, host, fixed)
      {
        var (id, seen) := all[i];
        ProgressOne(start, all, i, repo.rows, host, fixed);
        ProgressRow(all, i, repo.rows, host, fixed);
        DecideCorrects(seen, host);
        var status := host(seen.ctid);
        if status.Some? {
          var state := Decide(seen.state, status.value);
          if state.Some? {
            var _ := repo.UpdateState(id, state.value, Done);
            written := written + 1;
            fixed := fixed + {id};
          }
        }
      }
      PassEnds(start, all, repo.rows, host, fixed);
    }

    lemma ProgressNone(t: Table, all: seq<(Id, Container)>, host: Host)
      requires Lists(all, t, t.Keys)
      ensures Progress(all, 0, t, host, {})
    {
    }

    lemma ProgressRow(all: seq<(Id, Container)>, i: nat, now: Table, host: Host, fixed: set<Id>)
      requires i < |all| && Progress(all, i, now, host, fixed)
      ensures all[i].0 in now && now[all[i].0] == all[i].1
    {
    }

    /** A second pass against the same host writes nothing. */
    method SyncTwice(host: Host) returns (written: nat)
      modifies repo
      ensures Reconciled(old(repo.rows), repo.rows, host)
      ensures written == 0
    {
      var _ := SyncOnce(host);
      ReconciledAgrees(old(repo.rows), repo.rows, host);
      written := SyncOnce(host);
    }
  }
}
