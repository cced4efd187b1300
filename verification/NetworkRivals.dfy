/** Two creates of one owner that hold overlapping blocks always end in an overlap when both go on. */
module NetworkRivals {
  import opened Basics
  import opened Ipv4
  import opened Addressing
  import opened NetworkTables
  import opened NetworkSteps
  import opened NetworkInterleaved
  import opened NetworkScripts
  import opened NetworkBridges
  import opened NetworkConsistency
  import opened NetworkLimits

  /** The awaits a create past its checks still has before its network is active. */
  ghost function Rest(p: Proc, pid: nat): seq<Event> {
    if p.Create? && p.c.DrawBridge? then Finish(pid) else Go(pid) + Twice(pid)
  }

  /** The bridge number it stores its network under, if it goes on while `next` is the sequence value. */
  ghost function NumberOf(p: Proc, next: nat): int
    requires Checked(p)
  {
    if p.c.DrawBridge? then AsI32(next) else p.c.bridge
  }

  ghost function DrawnBy(p: Proc): nat { if p.Create? && p.c.DrawBridge? then 1 else 0 }

  ghost predicate Unused(networks: Networks, bridge: int) { forall id :: id in networks ==> networks[id].bridge != bridge }

  /** From any state: a create past its checks stores an active network. */
  lemma RestRuns(w: World, pid: nat)
    requires pid in w.procs && Checked(w.procs[pid])
    requires Unused(w.db.networks, NumberOf(w.procs[pid], w.db.nextBridge))
    ensures var p := w.procs[pid]; var b := NumberOf(p, w.db.nextBridge);
            Run(w, Rest(p, pid)) == World(
              w.db.(networks := w.db.networks[w.db.issued := Network(p.c.owner, b, p.c.cidr, NetworkState.Active)],
                    nextBridge := w.db.nextBridge + DrawnBy(p), issued := w.db.issued + 1),
              w.host.(bridges := w.host.bridges + {b}), w.procs - {pid}, w.nextPid)
  {
    hide Run, AsI32, Finish, Twice;
    var p, id := w.procs[pid], w.db.issued;
    if p.c.DrawBridge? {
      StoreRuns(w, pid, p.c.owner, p.c.cidr);
    } else {
      var b := p.c.bridge;
      var db := w.db.(networks := w.db.networks[id := Network(p.c.owner, b, p.c.cidr, Creating)], issued := id + 1);
      Goes(w, pid, db, w.host, Create(MakeBridge(id, b)));
      var w1 := Run(w, Go(pid));
      ProvisionRuns(w1, pid, id, b);
      RunConcat(w, Go(pid), Twice(pid));
      assert w1.procs - {pid} == w.procs - {pid};
      assert db.networks[id := db.networks[id].(state := NetworkState.Active)]
             == w.db.networks[id := Network(p.c.owner, b, p.c.cidr, NetworkState.Active)];
    }
  }

  /** Two active networks of one owner with overlapping blocks. */
  ghost predicate OverlapStored(networks: Networks, i: Id, j: Id) {
    && i != j && i in networks && j in networks && networks[i].owner == networks[j].owner
    && networks[i].state == networks[j].state == NetworkState.Active && Overlap(networks[i].cidr, networks[j].cidr)
  }

  /** The numbers the two are going to use are on no row, and differ. */
  ghost predicate NumbersFree(w: World, p: nat, q: nat)
    requires p in w.procs && q in w.procs && Checked(w.procs[p]) && Checked(w.procs[q])
  {
    var b, c := NumberOf(w.procs[p], w.db.nextBridge), NumberOf(w.procs[q], w.db.nextBridge + DrawnBy(w.procs[p]));
    b != c && Unused(w.db.networks, b) && Unused(w.db.networks, c)
  }

  /**
   * From every state with two rivals, at whichever await between check and insert each of them stands and whatever else
   * is in flight, letting one finish and then the other leaves two active networks of one owner that overlap.
   */
  lemma RivalsOverlapFromAnyState(w: World, p: nat, q: nat)
    requires p in w.procs && q in w.procs && p != q && Rivals(w.procs[p], w.procs[q]) && NumbersFree(w, p, q)
    ensures var after := Run(w, Rest(w.procs[p], p) + Rest(w.procs[q], q));
            OverlapStored(after.db.networks, w.db.issued, w.db.issued + 1) && !OwnersDisjoint(after.db.networks)
  {
    hide Run, AsI32, Rest, Overlap;
    RestRuns(w, p);
    var w1 := Run(w, Rest(w.procs[p], p));
    RestRuns(w1, q);
    RunConcat(w, Rest(w.procs[p], p), Rest(w.procs[q], q));
    var after := Run(w1, Rest(w.procs[q], q));
    assert OverlapStored(after.db.networks, w.db.issued, w.db.issued + 1);
  }

  /** The sequence value behind that number. */
  ghost function ValueOf(w: World, v: Values, pid: nat, next: nat): nat {
    if pid in v.held && Holds(w.procs, pid) then v.held[pid] else next
  }

  lemma NumbersAreFree(w: World, v: Values, p: nat, q: nat)
    requires Valued(w, v) && w.db.nextBridge <= FIRST_BRIDGE + WRAP - 2
    requires p in w.procs && q in w.procs && p != q && Checked(w.procs[p]) && Checked(w.procs[q])
    ensures NumbersFree(w, p, q)
  {
    hide AsI32;
    var next := w.db.nextBridge;
    var m, n := ValueOf(w, v, p, next), ValueOf(w, v, q, next + DrawnBy(w.procs[p]));
    assert NumberOf(w.procs[p], next) == AsI32(m) && NumberOf(w.procs[q], next + DrawnBy(w.procs[p])) == AsI32(n);
    NearbyDiffer(m, n);
    forall id | id in w.db.networks
      ensures w.db.networks[id].bridge != AsI32(m) && w.db.networks[id].bridge != AsI32(n)
    {
      NearbyDiffer(v.rows[id], m);
      NearbyDiffer(v.rows[id], n);
    }
  }

  /**
   * So the condition is exact: every run from the start with at most 2^32 - 2 draws that ends with two rivals has a
   * continuation, their own next awaits, that stores overlapping blocks of one owner.
   */
  lemma RivalsAlwaysOverlap(es: seq<Event>, p: nat, q: nat)
    requires var procs := Run(INIT, es).procs; p in procs && q in procs && p != q && Rivals(procs[p], procs[q])
    requires CountDraws(es) <= WRAP - 2
    ensures var w := Run(INIT, es);
            var networks := Run(INIT, es + (Rest(w.procs[p], p) + Rest(w.procs[q], q))).db.networks;
            OverlapStored(networks, w.db.issued, w.db.issued + 1)
  {
    hide Run, Rest, CountDraws, Valued, Overlap;
    var w := Run(INIT, es);
    RunValued(es);
    SequenceCountsDraws(es);
    NumbersAreFree(w, ValuesOf(es), p, q);
    RivalsOverlapFromAnyState(w, p, q);
    RunConcat(INIT, es, Rest(w.procs[p], p) + Rest(w.procs[q], q));
  }
}
