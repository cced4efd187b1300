/** What the limit and overlap checks are worth although they are not one with the insert they guard. */
module NetworkLimits {
  import opened Basics
  import opened Ipv4
  import opened Addressing
  import opened NetworkTables
  import opened NetworkSteps
  import opened NetworkInterleaved
  import opened NetworkConsistency
  import opened NetworkParallel

  // --- Blocks of one owner ------------------------------------------------------------------

  /** A create that has found its block free and not stored it yet. */
  ghost predicate Checked(p: Proc) { p.Create? && (p.c.DrawBridge? || p.c.InsertRow?) }

  /** Two creates of one owner have both found overlapping blocks free. */
  ghost predicate Rivals(p: Proc, q: Proc) {
    Checked(p) && Checked(q) && p.c.owner == q.c.owner && Overlap(p.c.cidr, q.c.cidr)
  }

  ghost predicate NoRivals(procs: map<nat, Proc>) {
    forall p, q :: p in procs && q in procs && p != q ==> !Rivals(procs[p], procs[q])
  }

  ghost predicate CheckedFit(networks: Networks, procs: map<nat, Proc>) {
    forall pid :: pid in procs && Checked(procs[pid]) ==> Fits(networks, procs[pid].c.owner, procs[pid].c.cidr)
  }

  ghost predicate Disjoint(w: World) { WorldOk(w) && OwnersDisjoint(w.db.networks) && CheckedFit(w.db.networks, w.procs) }

  lemma NextChecked(db: Db, host: Host, p: Proc, reply: Reply)
    ensures var o := Step(db, host, p, reply);
            o.next.Continue? && Checked(o.next.p) ==>
              && p.Create? && !Inserted(p) && o.next.p.c.owner == p.c.owner && o.next.p.c.cidr == p.c.cidr
              && o.db.networks == db.networks && (Checked(p) || !OverlapsOwn(db.networks, p.c.owner, p.c.cidr))
  {
    hide OverlapsOwn, AsI32, Live, LiveOf, PrintAddress, LowestFreeAddress, MembersOf, UsedIn, UsedSlots, LowestFree, Pick, Clash;
  }

  lemma ActKeepsDisjoint(w: World, pid: nat, reply: Reply)
    requires Disjoint(w) && NoRivals(w.procs) && pid in w.procs
    ensures Disjoint(Apply(w, Act(pid, reply)))
  {
    hide TablesOk, StaleOk, Step, OwnersDisjoint, Extends, Overlap, OverlapsOwn, Fits, AcceptedCidr;
    ApplyKeepsWorld(w, Act(pid, reply));
    var p, o := w.procs[pid], Step(w.db, w.host, w.procs[pid], reply);
    StepChangesRows(w.db, w.host, p, reply);
    NextChecked(w.db, w.host, p, reply);
    if o.next.Continue? && Checked(o.next.p) && !Checked(p) { OwnTestIsFit(w.db.networks, p.c.owner, p.c.cidr); }
    if p.Create? && p.c.InsertRow? && o.db.networks != w.db.networks {
      InsertDisjoint(w.db.networks, w.db.issued, Network(p.c.owner, p.c.bridge, p.c.cidr, Creating));
    } else {
      FewerDisjoint(w.db.networks, o.db.networks);
    }
    forall q | q in w.procs && q != pid && Checked(w.procs[q])
      ensures Fits(o.db.networks, w.procs[q].c.owner, w.procs[q].c.cidr)
    {
      assert !Rivals(w.procs[q], p);
      StillFits(w.db, p, o, w.procs[q].c.owner, w.procs[q].c.cidr);
    }
  }

  lemma StillFits(db: Db, p: Proc, o: Outcome, owner: Id, cidr: Net)
    requires RowsChange(db, p, o) && Fits(db.networks, owner, cidr)
    requires Checked(p) && p.c.owner == owner ==> !Overlap(cidr, p.c.cidr)
    ensures Fits(o.db.networks, owner, cidr)
  {
    hide Overlap;
  }

  lemma OthersKeepDisjoint(w: World, e: Event)
    requires Disjoint(w) && !e.Act?
    ensures Disjoint(Apply(w, e))
  {
    hide TablesOk, StaleOk, OwnersDisjoint, Extends, Fits;
    ApplyKeepsWorld(w, e);
    if e.Begin? { StartIsUnchecked(e.req); }
  }

  lemma StartIsUnchecked(req: Request)
    ensures Start(req).Continue? ==> !Checked(Start(req).p) && !Inserted(Start(req).p)
    ensures Start(req).Continue? && Start(req).p.Create? ==> Start(req).p.c.CountNode?
  {
  }

  lemma {:induction false} RunDisjoint(es: seq<Event>)
    requires forall i :: 0 <= i < |es| && es[i].Act? ==> NoRivals(Run(INIT, es[..i]).procs)
    ensures Disjoint(Run(INIT, es))
  {
    hide Disjoint, Apply, NoRivals;
    if es == [] {
      InitDisjoint();
    } else {
      var k := |es| - 1;
      assert forall i :: 0 <= i < k ==> es[..k][..i] == es[..i] && es[..k][i] == es[i];
      RunDisjoint(es[..k]);
      var w, e := Run(INIT, es[..k]), es[k];
      if e.Act? && e.pid in w.procs {
        ActKeepsDisjoint(w, e.pid, e.reply);
      } else if e.Act? {
        IdleAct(w, e);
      } else {
        OthersKeepDisjoint(w, e);
      }
    }
  }

  lemma IdleAct(w: World, e: Event)
    requires e.Act? && e.pid !in w.procs
    ensures Apply(w, e) == w
  {
  }

  lemma InitDisjoint()
    ensures Disjoint(INIT)
  {
  }

  /**
   * In every interleaving in which no two creates of one owner hold overlapping blocks between check and insert, the
   * blocks of one owner share no address, whatever the state of the networks.
   */
  lemma BlocksDisjointUnlessRivals(es: seq<Event>, i: Id, j: Id)
    requires forall k :: 0 <= k < |es| && es[k].Act? ==> NoRivals(Run(INIT, es[..k]).procs)
    ensures var networks := Run(INIT, es).db.networks;
            i in networks && j in networks && i != j && networks[i].owner == networks[j].owner ==>
              forall ip: nat :: !(networks[i].cidr.Contains(ip) && networks[j].cidr.Contains(ip))
  {
    hide Run, WorldOk, CheckedFit, Net.Contains, NoRivals;
    RunDisjoint(es);
    var networks := Run(INIT, es).db.networks;
    if i in networks && j in networks && i != j && networks[i].owner == networks[j].owner {
      assert !Overlap(networks[i].cidr, networks[j].cidr);
    }
  }

  // --- Numbers of live networks ----------------------------------------------------------------

  /** The live networks a limit is about: all of them, or those of one owner. */
  ghost function Counted(networks: Networks, who: Option<Id>): set<Id> {
    match who
    case None => Live(networks)
    case Some(owner) => LiveOf(networks, owner)
  }

  ghost function Limit(who: Option<Id>): nat { if who.None? then MAX_NETWORKS_PER_NODE else MAX_NETWORKS_PER_USER }

  ghost predicate Concerns(networks: Networks, p: Proc, who: Option<Id>) {
    && p.Create?
    && (if Inserted(p) then p.c.network in networks && (who.Some? ==> networks[p.c.network].owner == who.value)
        else who.Some? ==> p.c.owner == who.value)
  }

  /** The creates in flight that the limit concerns. */
  ghost function InFlight(w: World, who: Option<Id>): set<nat> {
    set pid | pid in w.procs && Concerns(w.db.networks, w.procs[pid], who)
  }

  ghost predicate Passed(c: CreateProc, who: Option<Id>) { !c.CountNode? && (who.Some? ==> !c.CountUser?) }

  /** It has passed the count, and its network is not among those counted, or no longer. */
  ghost predicate IsPending(networks: Networks, p: Proc, who: Option<Id>) {
    Concerns(networks, p, who) && Passed(p.c, who) && (Inserted(p) ==> p.c.network !in Live(networks))
  }

  ghost function Pending(networks: Networks, procs: map<nat, Proc>, who: Option<Id>): set<nat> {
    set pid | pid in procs && IsPending(networks, procs[pid], who)
  }

  ghost predicate Bounded(networks: Networks, procs: map<nat, Proc>, who: Option<Id>, n: nat) {
    |Counted(networks, who)| + |Pending(networks, procs, who)| <= Limit(who) - 1 + n
  }

  /** What an await does to its own request, as far as counting goes. */
  ghost predicate Moves(db: Db, p: Proc, o: Outcome, who: Option<Id>) {
    o.next.Continue? && o.next.p.Create? ==>
      && p.Create?
      && (Inserted(p) ==> Inserted(o.next.p) && o.next.p.c.network == p.c.network && o.db.networks == db.networks)
      && (Inserted(o.next.p) && !Inserted(p) ==> p.c.InsertRow? && o.next.p.c.network == db.issued && db.issued in Live(o.db.networks))
      && (!Inserted(o.next.p) ==> !Inserted(p) && o.next.p.c.owner == p.c.owner && o.db.networks == db.networks)
      && (Passed(o.next.p.c, who) && !Passed(p.c, who) && Concerns(db.networks, p, who) ==>
            |Counted(db.networks, who)| < Limit(who))
  }

  lemma StepMoves(db: Db, host: Host, p: Proc, reply: Reply, who: Option<Id>)
    requires TablesOk(db)
    ensures Moves(db, p, Step(db, host, p, reply), who)
  {
    hide TablesOk, OverlapsOwn, AsI32;
    if !p.Create? { OthersStay(db, host, p, reply); }
  }

  lemma CountsAdd(c: set<Id>, p: set<nat>, c1: set<Id>, p1: set<nat>, id: Id, pid: nat)
    ensures c1 <= c + {id} && pid in p && p1 <= p - {pid} ==> |c1| + |p1| <= |c| + |p|
    ensures id in c && c1 <= c - {id} && p1 <= p + {pid} ==> |c1| + |p1| <= |c| + |p|
    ensures c1 <= c && p1 <= p ==> |c1| + |p1| <= |c| + |p|
  {
    if c1 <= c + {id} && pid in p && p1 <= p - {pid} {
      Subset(c1, c + {id});
      Subset(p1, p - {pid});
    }
    if id in c && c1 <= c - {id} && p1 <= p + {pid} {
      Subset(c1, c - {id});
      Subset(p1, p + {pid});
    }
    if c1 <= c && p1 <= p {
      Subset(c1, c);
      Subset(p1, p);
    }
  }

  ghost function After(procs: map<nat, Proc>, pid: nat, next: Next): map<nat, Proc> {
    if next.Continue? then procs[pid := next.p] else procs - {pid}
  }

  /** A request that passes the count was in flight before, and so were all that are pending. */
  lemma PassingCounts(w: World, pid: nat, o: Outcome, who: Option<Id>, n: nat)
    requires Bounded(w.db.networks, w.procs, who, n) && |InFlight(w, who)| <= n && pid in w.procs
    requires Moves(w.db, w.procs[pid], o, who) && o.db.networks == w.db.networks
    ensures Bounded(o.db.networks, After(w.procs, pid, o.next), who, n)
  {
    hide Counted, Limit, Inserted;
    var before, after := Pending(w.db.networks, w.procs, who), Pending(w.db.networks, After(w.procs, pid, o.next), who);
    assert after - {pid} <= before - {pid} <= InFlight(w, who);
    if pid in after && pid !in before {
      assert pid in InFlight(w, who);
      Subset(after, InFlight(w, who));
    } else {
      Subset(after, before);
    }
  }

  lemma InsertingCounts(w: World, pid: nat, o: Outcome, who: Option<Id>)
    requires CreatesApart(w.procs, w.db.issued) && pid in w.procs && Moves(w.db, w.procs[pid], o, who)
    requires var p := w.procs[pid];
             && p.Create? && p.c.InsertRow? && w.db.issued !in w.db.networks
             && o.db.networks == w.db.networks[w.db.issued := Network(p.c.owner, p.c.bridge, p.c.cidr, Creating)]
    ensures |Counted(o.db.networks, who)| + |Pending(o.db.networks, After(w.procs, pid, o.next), who)|
            <= |Counted(w.db.networks, who)| + |Pending(w.db.networks, w.procs, who)|
  {
    CountsAdd(Counted(w.db.networks, who), Pending(w.db.networks, w.procs, who), Counted(o.db.networks, who),
              Pending(o.db.networks, After(w.procs, pid, o.next), who), w.db.issued, pid);
  }

  lemma ActivatingCounts(w: World, pid: nat, o: Outcome, who: Option<Id>)
    requires pid in w.procs && o.next.Return?
    requires var p := w.procs[pid];
             && p.Create? && p.c.Activate? && p.c.network in w.db.networks
             && o.db.networks == w.db.networks[p.c.network := w.db.networks[p.c.network].(state := NetworkState.Active)]
    ensures |Counted(o.db.networks, who)| + |Pending(o.db.networks, After(w.procs, pid, o.next), who)|
            <= |Counted(w.db.networks, who)| + |Pending(w.db.networks, w.procs, who)|
  {
    CountsAdd(Counted(w.db.networks, who), Pending(w.db.networks, w.procs, who), Counted(o.db.networks, who),
              Pending(o.db.networks, After(w.procs, pid, o.next), who), w.procs[pid].c.network, pid);
  }

  /** At most one create waits for the network that is being deleted. */
  lemma DeletingCounts(w: World, pid: nat, o: Outcome, who: Option<Id>)
    requires CreatesApart(w.procs, w.db.issued) && pid in w.procs && (o.next.Continue? ==> !o.next.p.Create?)
    requires var p := w.procs[pid];
             && p.Delete? && p.d.MarkDeleting? && p.d.network in w.db.networks
             && o.db.networks == w.db.networks[p.d.network := w.db.networks[p.d.network].(state := NetworkState.Deleting)]
    ensures |Counted(o.db.networks, who)| + |Pending(o.db.networks, After(w.procs, pid, o.next), who)|
            <= |Counted(w.db.networks, who)| + |Pending(w.db.networks, w.procs, who)|
  {
    var id := w.procs[pid].d.network;
    var q := if q :| q in w.procs && Inserted(w.procs[q]) && w.procs[q].c.network == id then q else pid;
    OnlyItsCreate(w, pid, o, who, q);
    hide Pending, CreatesApart;
    CountsAdd(Counted(w.db.networks, who), Pending(w.db.networks, w.procs, who), Counted(o.db.networks, who),
              Pending(o.db.networks, After(w.procs, pid, o.next), who), id, q);
  }

  /** Only the create of the network just marked may become pending, and only if the network was counted. */
  lemma OnlyItsCreate(w: World, pid: nat, o: Outcome, who: Option<Id>, q: nat)
    requires CreatesApart(w.procs, w.db.issued) && pid in w.procs && (o.next.Continue? ==> !o.next.p.Create?)
    requires var p := w.procs[pid];
             && p.Delete? && p.d.MarkDeleting? && p.d.network in w.db.networks
             && o.db.networks == w.db.networks[p.d.network := w.db.networks[p.d.network].(state := NetworkState.Deleting)]
    requires q == pid || (q in w.procs && Inserted(w.procs[q]) && w.procs[q].c.network == w.procs[pid].d.network)
    requires q == pid ==> forall r :: r in w.procs && Inserted(w.procs[r]) ==> w.procs[r].c.network != w.procs[pid].d.network
    ensures var before, after := Pending(w.db.networks, w.procs, who), Pending(o.db.networks, After(w.procs, pid, o.next), who);
            after <= before + {q} && (w.procs[pid].d.network !in Counted(w.db.networks, who) ==> after <= before)
  {
    forall r | r in After(w.procs, pid, o.next) && IsPending(o.db.networks, After(w.procs, pid, o.next)[r], who) && r != q
      ensures IsPending(w.db.networks, w.procs[r], who)
    {
    }
  }

  lemma DroppingCounts(w: World, pid: nat, o: Outcome, who: Option<Id>)
    requires pid in w.procs && (o.next.Continue? ==> !o.next.p.Create?)
    requires exists id :: o.db.networks == w.db.networks - {id}
    ensures |Counted(o.db.networks, who)| + |Pending(o.db.networks, After(w.procs, pid, o.next), who)|
            <= |Counted(w.db.networks, who)| + |Pending(w.db.networks, w.procs, who)|
  {
    CountsAdd(Counted(w.db.networks, who), Pending(w.db.networks, w.procs, who), Counted(o.db.networks, who),
              Pending(o.db.networks, After(w.procs, pid, o.next), who), 0, pid);
  }

  lemma ActKeepsBound(w: World, pid: nat, reply: Reply, who: Option<Id>, n: nat)
    requires WorldOk(w) && CreatesApart(w.procs, w.db.issued) && pid in w.procs
    requires Bounded(w.db.networks, w.procs, who, n) && |InFlight(w, who)| <= n
    ensures var after := Apply(w, Act(pid, reply)); Bounded(after.db.networks, after.procs, who, n)
  {
    hide TablesOk, StaleOk, CreatesApart, Step, Counted, Pending, InFlight, Limit, Moves, Inserted;
    var p, o := w.procs[pid], Step(w.db, w.host, w.procs[pid], reply);
    StepChangesRows(w.db, w.host, p, reply);
    StepMoves(w.db, w.host, p, reply, who);
    if !p.Create? { OthersStay(w.db, w.host, p, reply); }
    if o.db.networks == w.db.networks {
      PassingCounts(w, pid, o, who, n);
    } else if p.Create? && p.c.InsertRow? {
      InsertingCounts(w, pid, o, who);
    } else if p.Create? {
      ActivatingEnds(w.db, w.host, p, reply);
      ActivatingCounts(w, pid, o, who);
    } else if p.d.MarkDeleting? {
      DeletingCounts(w, pid, o, who);
    } else {
      DroppingCounts(w, pid, o, who);
    }
  }

  lemma ActivatingEnds(db: Db, host: Host, p: Proc, reply: Reply)
    requires p.Create? && p.c.Activate?
    ensures Step(db, host, p, reply).next.Return?
  {
  }

  lemma OthersKeepBound(w: World, e: Event, who: Option<Id>, n: nat)
    requires Bounded(w.db.networks, w.procs, who, n) && !e.Act?
    ensures Bounded(Apply(w, e).db.networks, Apply(w, e).procs, who, n)
  {
    hide Counted, Limit, Inserted, Start;
    if e.Begin? { StartIsUnchecked(e.req); }
    assert Pending(Apply(w, e).db.networks, Apply(w, e).procs, who) <= Pending(w.db.networks, w.procs, who);
    Subset(Pending(Apply(w, e).db.networks, Apply(w, e).procs, who), Pending(w.db.networks, w.procs, who));
  }

  lemma OthersKeepApart(w: World, e: Event)
    requires CreatesApart(w.procs, w.db.issued) && !e.Act?
    ensures CreatesApart(Apply(w, e).procs, Apply(w, e).db.issued)
  {
    if e.Begin? { StartIsUnchecked(e.req); }
  }

  lemma {:induction false} RunApart(es: seq<Event>)
    ensures CreatesApart(Run(INIT, es).procs, Run(INIT, es).db.issued)
  {
    hide Apply, CreatesApart;
    if es == [] {
      InitMatched();
    } else {
      var w, e := Run(INIT, es[..|es| - 1]), es[|es| - 1];
      RunApart(es[..|es| - 1]);
      if e.Act? && e.pid in w.procs {
        ActKeepsApart(w, e.pid, e.reply);
      } else if e.Act? {
        IdleAct(w, e);
      } else {
        OthersKeepApart(w, e);
      }
    }
  }

  /** Whenever an await ends, at most n creates that the limit concerns are in flight. */
  ghost predicate AtMostInFlight(es: seq<Event>, who: Option<Id>, n: nat) {
    forall i :: 0 <= i < |es| && es[i].Act? ==> |InFlight(Run(INIT, es[..i]), who)| <= n
  }

  lemma {:induction false} RunBounded(es: seq<Event>, who: Option<Id>, n: nat)
    requires AtMostInFlight(es, who, n)
    ensures Bounded(Run(INIT, es).db.networks, Run(INIT, es).procs, who, n)
  {
    hide Bounded, Apply, InFlight, WorldOk, CreatesApart;
    if es == [] {
      InitBounded(who, n);
    } else {
      var k := |es| - 1;
      assert forall i :: 0 <= i < k ==> es[..k][..i] == es[..i] && es[..k][i] == es[i];
      RunBounded(es[..k], who, n);
      RunApart(es[..k]);
      InitOk();
      RunKeepsWorld(INIT, es[..k]);
      var w, e := Run(INIT, es[..k]), es[k];
      if e.Act? && e.pid in w.procs {
        ActKeepsBound(w, e.pid, e.reply, who, n);
      } else if e.Act? {
        IdleAct(w, e);
      } else {
        OthersKeepBound(w, e, who, n);
      }
    }
  }

  lemma InitBounded(who: Option<Id>, n: nat)
    ensures Bounded(INIT.db.networks, INIT.procs, who, n)
  {
    assert Counted(INIT.db.networks, who) == {} && Pending(INIT.db.networks, INIT.procs, who) == {};
  }

  /**
   * In every interleaving with at most n creates in flight together, at most 99 + n networks are live; with at most n of
   * one owner, at most 4 + n of that owner's. With one at a time the limits hold exactly as written.
   */
  lemma LiveNetworksBounded(es: seq<Event>, owner: Id, n: nat)
    ensures AtMostInFlight(es, None, n) ==> |Live(Run(INIT, es).db.networks)| <= 99 + n
    ensures AtMostInFlight(es, Some(owner), n) ==> |LiveOf(Run(INIT, es).db.networks, owner)| <= 4 + n
  {
    hide Run, Live, LiveOf, AtMostInFlight;
    if AtMostInFlight(es, None, n) { RunBounded(es, None, n); }
    if AtMostInFlight(es, Some(owner), n) { RunBounded(es, Some(owner), n); }
  }
}
