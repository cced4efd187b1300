/** When a bridge number comes back: the 64-bit sequence value is cut to 32 bits. */
module NetworkBridges {
  import opened Basics
  import opened Ipv4
  import opened Addressing
  import opened NetworkTables
  import opened NetworkSteps
  import opened NetworkInterleaved
  import opened NetworkScripts

  const WRAP: nat := 0x1_0000_0000

  lemma WrapMod(a: nat, b: nat)
    requires a <= b
    ensures AsI32(a) == AsI32(b) <==> (b - a) % WRAP == 0
  {
    assert AsI32(a) == AsI32(b) <==> a % WRAP == b % WRAP;
  }

  // --- Draws --------------------------------------------------------------------------------

  /** The event takes a value from the sequence, whether or not the request learns of it. */
  ghost predicate Draws(w: World, e: Event) {
    e.Act? && e.pid in w.procs && w.procs[e.pid].Create? && w.procs[e.pid].c.DrawBridge? && e.reply != Fail(false)
  }

  /** The request has drawn a number and stands at the insert of its row. */
  ghost predicate Holds(procs: map<nat, Proc>, pid: nat) { pid in procs && procs[pid].Create? && procs[pid].c.InsertRow? }

  ghost predicate DrawsAt(es: seq<Event>, i: nat)
    requires i < |es|
  {
    Draws(Run(INIT, es[..i]), es[i])
  }

  /** The number event i draws. */
  ghost function NumberAt(es: seq<Event>, i: nat): int
    requires i < |es|
  {
    AsI32(Run(INIT, es[..i]).db.nextBridge)
  }

  ghost function CountDraws(es: seq<Event>): nat {
    if es == [] then 0
    else CountDraws(es[..|es| - 1]) + if Draws(Run(INIT, es[..|es| - 1]), es[|es| - 1]) then 1 else 0
  }

  /** Only a draw moves the sequence, by one; a draw that goes through hands its number to the request. */
  lemma ApplyMovesSequence(w: World, e: Event)
    ensures Apply(w, e).db.nextBridge == w.db.nextBridge + if Draws(w, e) then 1 else 0
    ensures Draws(w, e) && e.reply == Done ==>
              e.pid in Apply(w, e).procs && Apply(w, e).procs[e.pid]
                == Create(InsertRow(w.procs[e.pid].c.owner, w.procs[e.pid].c.cidr, AsI32(w.db.nextBridge)))
  {
    hide StepCreate, StepAdd, StepDelete, StepRemove, AsI32, Start;
    if e.Act? && e.pid in w.procs {
      var p := w.procs[e.pid];
      if p.Create? {
        CreateMovesSequence(w.db, w.host, p.c, e.reply);
      } else {
        hide Step;
        OthersKeepSequence(w.db, w.host, p, e.reply);
      }
    }
  }

  lemma CreateMovesSequence(db: Db, host: Host, c: CreateProc, reply: Reply)
    ensures var o := StepCreate(db, host, c, reply); var draws := c.DrawBridge? && reply != Fail(false);
            && o.db.nextBridge == db.nextBridge + (if draws then 1 else 0)
            && (draws && reply == Done ==> o.next == Continue(Create(InsertRow(c.owner, c.cidr, AsI32(db.nextBridge)))))
  {
    hide OverlapsOwn, Live, LiveOf, AsI32;
  }

  lemma OthersKeepSequence(db: Db, host: Host, p: Proc, reply: Reply)
    requires !p.Create?
    ensures Step(db, host, p, reply).db.nextBridge == db.nextBridge
  {
    hide LowestFreeAddress, MembersOf, Pick, UsedIn, UsedSlots, Clash, PrintAddress, LowestFree;
  }

  lemma {:induction false} SequenceCountsDraws(es: seq<Event>)
    ensures Run(INIT, es).db.nextBridge == FIRST_BRIDGE + CountDraws(es)
  {
    hide Apply, Draws;
    if es != [] {
      SequenceCountsDraws(es[..|es| - 1]);
      ApplyMovesSequence(Run(INIT, es[..|es| - 1]), es[|es| - 1]);
    }
  }

  lemma {:induction false} CountGrows(es: seq<Event>, i: nat)
    requires i <= |es|
    ensures CountDraws(es[..i]) <= CountDraws(es)
    ensures i < |es| && DrawsAt(es, i) ==> CountDraws(es[..i]) < CountDraws(es)
  {
    hide Run, Draws;
    if i == |es| {
      assert es[..i] == es;
    } else {
      var front := es[..|es| - 1];
      assert front[..i] == es[..i];
      if i < |front| { assert front[i] == es[i]; }
      CountGrows(front, i);
    }
  }

  /**
   * In every interleaving, two draws give the same number if and only if the number of draws from the first up to the
   * second is a positive multiple of 2^32.
   */
  lemma DrawsRepeatIffWrapped(es: seq<Event>, i: nat, j: nat)
    requires i < j < |es| && DrawsAt(es, i) && DrawsAt(es, j)
    ensures var apart := CountDraws(es[..j]) - CountDraws(es[..i]);
            apart > 0 && (NumberAt(es, i) == NumberAt(es, j) <==> apart % WRAP == 0)
    ensures es[i].reply == Done ==>
              var procs := Run(INIT, es[..i + 1]).procs; Holds(procs, es[i].pid) && procs[es[i].pid].c.bridge == NumberAt(es, i)
  {
    hide Run, Draws, AsI32;
    assert es[..j][..i] == es[..i] && es[..j][i] == es[i];
    CountGrows(es[..j], i);
    SequenceCountsDraws(es[..i]);
    SequenceCountsDraws(es[..j]);
    WrapMod(Run(INIT, es[..i]).db.nextBridge, Run(INIT, es[..j]).db.nextBridge);
    RunSnoc(INIT, es[..i], es[i]);
    assert es[..i + 1] == es[..i] + [es[i]];
    ApplyMovesSequence(Run(INIT, es[..i]), es[i]);
  }

  // --- Numbers of networks ----------------------------------------------------------------------

  /** The sequence value behind every network ever stored, and behind every number a request still holds. */
  datatype Values = Values(rows: map<Id, nat>, held: map<nat, nat>)

  ghost function Record(v: Values, w: World, e: Event): Values {
    if Draws(w, e) then v.(held := v.held[e.pid := w.db.nextBridge])
    else if e.Act? && Holds(w.procs, e.pid) && e.pid in v.held && w.db.issued in Apply(w, e).db.networks
    then v.(rows := v.rows[w.db.issued := v.held[e.pid]])
    else v
  }

  ghost function ValuesOf(es: seq<Event>): Values {
    if es == [] then Values(map[], map[])
    else Record(ValuesOf(es[..|es| - 1]), Run(INIT, es[..|es| - 1]), es[|es| - 1])
  }

  ghost predicate RowValues(networks: Networks, rows: map<Id, nat>, next: nat, issued: nat) {
    && (forall id :: id in rows ==> id < issued && FIRST_BRIDGE <= rows[id] < next)
    && (forall id :: id in networks ==> id in rows && networks[id].bridge == AsI32(rows[id]))
    && (forall i, j :: i in rows && j in rows && i != j ==> rows[i] != rows[j])
  }

  ghost predicate HeldValues(procs: map<nat, Proc>, v: Values, next: nat) {
    && (forall p :: Holds(procs, p) ==>
          p in v.held && FIRST_BRIDGE <= v.held[p] < next && procs[p].c.bridge == AsI32(v.held[p]))
    && (forall p, q :: Holds(procs, p) && Holds(procs, q) && p != q && p in v.held && q in v.held ==> v.held[p] != v.held[q])
    && (forall p, id :: Holds(procs, p) && p in v.held && id in v.rows ==> v.held[p] != v.rows[id])
  }

  ghost predicate Valued(w: World, v: Values) {
    && FIRST_BRIDGE <= w.db.nextBridge
    && RowValues(w.db.networks, v.rows, w.db.nextBridge, w.db.issued) && HeldValues(w.procs, v, w.db.nextBridge)
  }

  /** What a statement can do to the rows: nothing new, or the row of a request at its insert, which then moves on. */
  ghost predicate RowsMove(db: Db, p: Proc, o: Outcome) {
    && db.issued <= o.db.issued
    && (forall id :: id in o.db.networks && id != db.issued ==>
          id in db.networks && o.db.networks[id].bridge == db.networks[id].bridge)
    && (db.issued in o.db.networks && db.issued !in db.networks ==>
          p.Create? && p.c.InsertRow? && db.issued < o.db.issued && o.db.networks[db.issued].bridge == p.c.bridge)
  }

  lemma CreateMovesRows(db: Db, host: Host, c: CreateProc, reply: Reply)
    ensures RowsMove(db, Create(c), StepCreate(db, host, c, reply))
    ensures var next := StepCreate(db, host, c, reply).next;
            next.Continue? && next.p.Create? && next.p.c.InsertRow? ==> c.DrawBridge? && reply == Done
  {
    hide OverlapsOwn, Live, LiveOf, AsI32;
  }

  lemma OthersMoveRows(db: Db, host: Host, p: Proc, reply: Reply)
    requires !p.Create?
    ensures RowsMove(db, p, Step(db, host, p, reply))
    ensures var next := Step(db, host, p, reply).next; next.Continue? ==> !next.p.Create?
  {
    hide LowestFreeAddress, MembersOf, Pick, UsedIn, UsedSlots, Clash, PrintAddress, LowestFree;
  }

  /** What an event does to rows and to held numbers. */
  lemma ApplyShape(w: World, e: Event)
    ensures var after := Apply(w, e);
            && w.db.issued <= after.db.issued
            && (forall id :: id in after.db.networks && id != w.db.issued ==>
                  id in w.db.networks && after.db.networks[id].bridge == w.db.networks[id].bridge)
            && (w.db.issued in after.db.networks && w.db.issued !in w.db.networks ==>
                  && e.Act? && Holds(w.procs, e.pid) && !Holds(after.procs, e.pid) && w.db.issued < after.db.issued
                  && after.db.networks[w.db.issued].bridge == w.procs[e.pid].c.bridge)
            && (forall p :: Holds(after.procs, p) ==>
                  (Holds(w.procs, p) && after.procs[p] == w.procs[p] && !(e.Act? && e.pid == p)) || (Draws(w, e) && e.pid == p))
  {
    hide StepCreate, StepAdd, StepDelete, StepRemove;
    match e
    case Act(pid, reply) =>
      if pid in w.procs {
        var p := w.procs[pid];
        if p.Create? {
          CreateMovesRows(w.db, w.host, p.c, reply);
        } else {
          hide Step;
          OthersMoveRows(w.db, w.host, p, reply);
        }
      }
    case Begin(req) => StartHoldsNothing(req);
    case _ =>
  }

  lemma StartHoldsNothing(req: Request)
    ensures Start(req).Continue? ==> !(Start(req).p.Create? && Start(req).p.c.InsertRow?)
  {
  }

  lemma ApplyKeepsRowValues(w: World, e: Event, v: Values)
    requires WorldOk(w) && Valued(w, v)
    ensures var after, r := Apply(w, e), Record(v, w, e); RowValues(after.db.networks, r.rows, after.db.nextBridge, after.db.issued)
  {
    hide Apply, Draws, AsI32, WorldOk;
    NotIssued(w);
    ApplyShape(w, e);
    ApplyMovesSequence(w, e);
    DrawEndsElsewhere(w, e);
  }

  lemma ApplyKeepsHeldValues(w: World, e: Event, v: Values)
    requires WorldOk(w) && Valued(w, v)
    ensures HeldValues(Apply(w, e).procs, Record(v, w, e), Apply(w, e).db.nextBridge)
  {
    hide Apply, Draws, AsI32, WorldOk;
    NotIssued(w);
    ApplyShape(w, e);
    ApplyMovesSequence(w, e);
    DrawEndsElsewhere(w, e);
  }

  lemma ApplyKeepsValued(w: World, e: Event, v: Values)
    requires WorldOk(w) && Valued(w, v)
    ensures Valued(Apply(w, e), Record(v, w, e))
  {
    hide Apply, Draws, Record, WorldOk, RowValues, HeldValues;
    ApplyMovesSequence(w, e);
    ApplyKeepsRowValues(w, e, v);
    ApplyKeepsHeldValues(w, e, v);
  }

  lemma NotIssued(w: World)
    requires WorldOk(w)
    ensures w.db.issued !in w.db.networks
  {
    IdsIssued(w.db);
  }

  /** A draw stores no row, and holds a number only if it went through. */
  lemma DrawEndsElsewhere(w: World, e: Event)
    ensures Draws(w, e) ==> Apply(w, e).db.networks == w.db.networks && e.Act? && !Holds(w.procs, e.pid)
    ensures Draws(w, e) && Holds(Apply(w, e).procs, e.pid) ==> Apply(w, e).procs[e.pid].c.bridge == AsI32(w.db.nextBridge)
  {
    hide LowestFreeAddress, OverlapsOwn, Live, LiveOf, MembersOf, Pick, UsedIn, UsedSlots, AsI32;
  }

  lemma {:induction false} RunValued(es: seq<Event>)
    ensures Valued(Run(INIT, es), ValuesOf(es))
  {
    hide Apply, Record, Valued, WorldOk;
    if es == [] {
      NothingValued();
    } else {
      var before := es[..|es| - 1];
      RunValued(before);
      InitOk();
      RunKeepsWorld(INIT, before);
      ApplyKeepsValued(Run(INIT, before), es[|es| - 1], ValuesOf(before));
    }
  }

  lemma NothingValued()
    ensures Valued(INIT, Values(map[], map[]))
  {
  }

  /** The value behind a row stays on record, also after the row is deleted. */
  lemma {:induction false} RowsStayOnRecord(es: seq<Event>, i: nat, id: Id)
    requires i <= |es| && id in ValuesOf(es[..i]).rows
    ensures id in ValuesOf(es).rows && ValuesOf(es).rows[id] == ValuesOf(es[..i]).rows[id]
  {
    hide Run, Apply, Draws, Valued;
    if i == |es| {
      assert es[..i] == es;
    } else {
      var front := es[..|es| - 1];
      assert front[..i] == es[..i];
      RowsStayOnRecord(front, i, id);
      RunValued(front);
      FreshOnRecord(Run(INIT, front), ValuesOf(front), id);
    }
  }

  lemma FreshOnRecord(w: World, v: Values, id: Id)
    requires Valued(w, v) && id in v.rows
    ensures id != w.db.issued
  {
  }

  /**
   * In every interleaving with at most 2^32 draws, no two networks ever stored share a bridge number, at whatever two
   * points they exist, also after one of them is deleted.
   */
  lemma BridgesAreDistinct(es: seq<Event>, i: nat, j: nat, a: Id, b: Id)
    requires CountDraws(es) <= WRAP && i <= |es| && j <= |es| && a != b
    requires a in Run(INIT, es[..i]).db.networks && b in Run(INIT, es[..j]).db.networks
    ensures Run(INIT, es[..i]).db.networks[a].bridge != Run(INIT, es[..j]).db.networks[b].bridge
  {
    hide Run, AsI32, ValuesOf, Holds;
    RunValued(es[..i]);
    RunValued(es[..j]);
    RunValued(es);
    RowsStayOnRecord(es, i, a);
    RowsStayOnRecord(es, j, b);
    SequenceCountsDraws(es);
    var m, n := ValuesOf(es).rows[a], ValuesOf(es).rows[b];
    NearbyDiffer(m, n);
  }

  lemma NearbyDiffer(m: nat, n: nat)
    requires m != n && FIRST_BRIDGE <= m < FIRST_BRIDGE + WRAP && FIRST_BRIDGE <= n < FIRST_BRIDGE + WRAP
    ensures AsI32(m) != AsI32(n)
  {
    if m < n { WrapMod(m, n); } else { WrapMod(n, m); }
  }

  // --- A run that reuses a number ------------------------------------------------------------------

  const REQUEST: Request := CreateNetwork(Actor(7, false), true, Some(Net(0x0A00_0000, 24)))

  lemma RequestAccepted()
    ensures Start(REQUEST) == Continue(Create(CountNode(7, Net(0x0A00_0000, 24))))
  {
    assert PRIVATE_RANGES[0] == Net(0x0A00_0000, 8);
    assert PRIVATE_RANGES[0].Contains(Net(0x0A00_0000, 24).Network());
  }

  /** No network stored, and process numbers not yet taken. */
  ghost predicate Bare(w: World) { w.db.networks == map[] && forall pid :: pid in w.procs ==> pid < w.nextPid }

  lemma BareHasRoom(w: World)
    requires Bare(w)
    ensures Live(w.db.networks) == {} && LiveOf(w.db.networks, 7) == {}
    ensures !OverlapsOwn(w.db.networks, 7, Net(0x0A00_0000, 24))
  {
  }

  function CreateEvents(pid: nat): seq<Event> { EnterWith(REQUEST, pid) + Finish(pid) }

  /** A network is created under the number drawn. */
  lemma CreateRuns(w: World)
    requires Bare(w)
    ensures var b := AsI32(w.db.nextBridge);
            Run(w, CreateEvents(w.nextPid)) == World(
              w.db.(networks := map[w.db.issued := Network(7, b, Net(0x0A00_0000, 24), NetworkState.Active)],
                    nextBridge := w.db.nextBridge + 1, issued := w.db.issued + 1),
              w.host.(bridges := w.host.bridges + {b}), w.procs, w.nextPid + 1)
  {
    hide Run, AsI32, Start, EnterWith, Finish;
    RequestAccepted();
    BareHasRoom(w);
    CheckRuns(w, REQUEST, 7, Net(0x0A00_0000, 24));
    var w1 := Joined(w, Create(DrawBridge(7, Net(0x0A00_0000, 24))));
    StoreRuns(w1, w.nextPid, 7, Net(0x0A00_0000, 24));
    RunConcat(w, EnterWith(REQUEST, w.nextPid), Finish(w.nextPid));
    assert w1.procs - {w.nextPid} == w.procs;
  }

  function DeleteEvents(pid: nat, id: Id): seq<Event> {
    DeleteEnter(Actor(7, false), id, pid) + [Act(pid, Done)] + [Act(pid, Done)] + [Act(pid, Done)]
  }

  /** Its owner deletes it. */
  lemma DeleteRuns(w: World, id: Id)
    requires id in w.db.networks && w.db.networks[id].owner == 7 && MembersOf(w.db.members, id) == {} && w.nextPid !in w.procs
    ensures Run(w, DeleteEvents(w.nextPid, id)) == World(
              w.db.(networks := w.db.networks - {id}), w.host.(bridges := w.host.bridges - {w.db.networks[id].bridge}),
              w.procs, w.nextPid + 1)
  {
    hide Run, MembersOf, DeleteEnter;
    var pid, b := w.nextPid, w.db.networks[id].bridge;
    var enter, act := DeleteEnter(Actor(7, false), id, pid), [Act(pid, Done)];
    DeleteChecks(w, Actor(7, false), id);
    var w1 := Joined(w, Delete(MarkDeleting(id, b)));
    MarkRuns(w1, pid, id, b);
    RunConcat(w, enter, act);
    var w2 := Run(w1, act);
    UnbridgeRuns(w2, pid, id, b);
    RunConcat(w, enter + act, act);
    var w3 := Run(w2, act);
    DropRuns(w3, pid, id);
    RunConcat(w, enter + act + act, act);
    assert w3.procs - {pid} == w.procs;
    assert w3.db.networks - {id} == w.db.networks - {id};
  }

  /** n requests, each of which draws a number and then fails. */
  function Spend(pid: nat, n: nat): seq<Event>
    decreases n
  {
    if n == 0 then [] else EnterWith(REQUEST, pid) + [Act(pid, Fail(true))] + Spend(pid + 1, n - 1)
  }

  lemma {:induction false} SpendRuns(w: World, n: nat)
    requires Bare(w)
    ensures Run(w, Spend(w.nextPid, n)) == w.(db := w.db.(nextBridge := w.db.nextBridge + n), nextPid := w.nextPid + n)
    decreases n
  {
    hide Run, EnterWith, Start;
    if n == 0 {
      RunNone(w);
    } else {
      RequestAccepted();
      BareHasRoom(w);
      DrawFails(w, REQUEST, 7, Net(0x0A00_0000, 24));
      var w1 := w.(db := w.db.(nextBridge := w.db.nextBridge + 1), nextPid := w.nextPid + 1);
      RunConcat(w, EnterWith(REQUEST, w.nextPid) + [Act(w.nextPid, Fail(true))], Spend(w.nextPid + 1, n - 1));
      SpendRuns(w1, n - 1);
    }
  }

  /** A network is created and deleted, 2^32 - 1 draws are spent, and another network is created. */
  function ReuseRun(): seq<Event> { (CreateEvents(0) + DeleteEvents(1, 0)) + Spend(2, WRAP - 1) + CreateEvents(WRAP + 1) }

  /**
   * The bound is exact: with one draw more than 2^32, a run from the start stores a second network under the number of
   * a first, deleted one.
   */
  lemma ReuseHappens()
    ensures var es := ReuseRun();
            && CountDraws(es) == WRAP + 1 && CreateEvents(0) <= es
            && (var first, last := Run(INIT, CreateEvents(0)).db.networks, Run(INIT, es).db.networks;
                0 in first && 0 !in last && 1 in last && last[1].bridge == first[0].bridge)
  {
    hide Run, CreateEvents, DeleteEvents, Spend, AsI32;
    CreateRuns(INIT);
    var w1 := Run(INIT, CreateEvents(0));
    DeleteRuns(w1, 0);
    RunConcat(INIT, CreateEvents(0), DeleteEvents(1, 0));
    var e2 := CreateEvents(0) + DeleteEvents(1, 0);
    var w2 := Run(INIT, e2);
    SpendRuns(w2, WRAP - 1);
    RunConcat(INIT, e2, Spend(2, WRAP - 1));
    var w3 := Run(INIT, e2 + Spend(2, WRAP - 1));
    CreateRuns(w3);
    RunConcat(INIT, e2 + Spend(2, WRAP - 1), CreateEvents(WRAP + 1));
    WrapMod(FIRST_BRIDGE, FIRST_BRIDGE + WRAP);
    SequenceCountsDraws(ReuseRun());
  }
}
