/** What whole operations and whole passes leave in the table when nothing comes between their awaits. */
module StateSyncRuns {
  import opened Basics
  import opened StateSync

  lemma {:induction false} RunFirst(w: World, e: Event, es: seq<Event>)
    ensures Run(w, [e] + es) == Run(Apply(w, e), es)
  {
    hide Apply;
    var all := [e] + es;
    if es == [] {
      assert all[..0] == [];
    } else {
      RunFirst(w, e, es[..|es| - 1]);
      assert all[..|all| - 1] == [e] + es[..|es| - 1];
    }
  }

  lemma RunOne(w: World, e: Event)
    ensures Run(w, [e]) == Apply(w, e)
  {
    hide Apply;
    assert [e][..0] == [];
  }

  lemma RunThree(w: World, e1: Event, e2: Event, e3: Event)
    ensures Run(w, [e1, e2, e3]) == Apply(Apply(Apply(w, e1), e2), e3)
  {
    hide Run, Apply;
    assert [e1, e2, e3] == [e1] + ([e2] + [e3]);
    RunFirst(w, e1, [e2] + [e3]);
    RunFirst(Apply(w, e1), e2, [e3]);
    RunOne(Apply(Apply(w, e1), e2), e3);
  }

  // --- Operations -----------------------------------------------------------------------------

  /** Await of process `pid` that went through; `seen` is whether the poll saw the wanted state. */
  function Step(pid: nat, seen: bool): Event { Act(pid, [], seen, None, Done) }

  /** A create ends with a new running container, or a failed one if the poll did not see it run. */
  lemma CreateAlone(w: World, ctid: int, seen: bool)
    requires w.next !in w.procs && w.next + 1 !in w.table
    ensures var after := Run(w, [Create(ctid), Step(w.next, false), Step(w.next, seen)]);
            after.procs == w.procs
            && after.table == w.table[w.next + 1 := Container(ctid, if seen then Running else Failed)]
  {
    hide Run, Apply;
    var w1 := Apply(w, Create(ctid));
    CreateBegins(w, ctid);
    InsertStep(w1, w.next, ctid);
    var w2 := Apply(w1, Step(w.next, false));
    FinishStep(w2, w.next, w.next + 1, seen);
    RunThree(w, Create(ctid), Step(w.next, false), Step(w.next, seen));
    assert w2.procs - {w.next} == w.procs;
    var row := Container(ctid, if seen then Running else Failed);
    assert w.table[w.next + 1 := Container(ctid, Provisioning)][w.next + 1 := row] == w.table[w.next + 1 := row];
  }

  lemma CreateBegins(w: World, ctid: int)
    ensures Apply(w, Create(ctid)) == Spawn(w, InsertNew(ctid))
  {
  }

  lemma FinishStep(w: World, pid: nat, id: Id, seen: bool)
    requires pid in w.procs && w.procs[pid] == FinishCreate(id) && id in w.table
    ensures var after := Apply(w, Step(pid, seen));
            && after.procs == w.procs - {pid}
            && after.table == w.table[id := w.table[id].(state := if seen then Running else Failed)]
  {
  }

  lemma InsertStep(w: World, pid: nat, ctid: int)
    requires pid in w.procs && w.procs[pid] == InsertNew(ctid)
    ensures var after := Apply(w, Step(pid, false));
            && after.procs == w.procs[pid := FinishCreate(w.next)]
            && after.table == w.table[w.next := Container(ctid, Provisioning)]
  {
  }

  /** A start or restart ends with the row running, a stop with it stopped, or with it failed if the poll did not see that. */
  lemma OperationAlone(w: World, id: Id, stop: bool, seen: bool)
    requires w.next !in w.procs && id in w.table
    ensures var op := if stop then Stop(id) else StartOrRestart(id);
            var after := Run(w, [op, Step(w.next, false), Step(w.next, seen)]);
            && after.procs == w.procs
            && after.table == w.table[id := w.table[id].(state := if !seen then Failed else if stop then Stopped else Running)]
  {
    hide Run;
    var op, e2, e3 := if stop then Stop(id) else StartOrRestart(id), Step(w.next, false), Step(w.next, seen);
    RunThree(w, op, e2, e3);
    assert Apply(Apply(Apply(w, op), e2), e3).procs == w.procs;
  }

  /** A failing statement of an operation or a failing list ends its process: the table stays, or is as after success. */
  lemma FailureLaw(w: World, pid: nat, e: Event, acted: bool)
    requires e.Act? && e.pid == pid && pid in w.procs && e.reply == Fail(acted) && !w.procs[pid].Query? && !w.procs[pid].WriteBack?
    ensures var after, done := Apply(w, e), Apply(w, e.(reply := Done));
            after.procs == w.procs - {pid} && after.table == if acted then done.table else w.table
  {
    hide ListsAll, Rows, Decide, SetState, Sweep;
  }

  /** A failing write of the loop does not end its pass. */
  lemma PassGoesOn(w: World, pid: nat, e: Event, acted: bool)
    requires e.Act? && e.pid == pid && pid in w.procs && e.reply == Fail(acted) && w.procs[pid].WriteBack?
    ensures var after, done := Apply(w, e), Apply(w, e.(reply := Done));
            && after.table == (if acted then done.table else w.table)
            && after.procs == w.procs[pid := Query(w.procs[pid].left, w.procs[pid].listing)]
  {
    hide ListsAll, Rows, Decide, SetState;
  }

  // --- Passes ---------------------------------------------------------------------------------

  /** The first `i` rows are as corrected by the listed state, the others as listed. */
  ghost predicate Swept(all: seq<(Id, Container)>, i: nat, now: Table, host: Host)
    requires i <= |all|
  {
    forall j :: 0 <= j < |all| ==> all[j].0 in now && now[all[j].0] == if j < i then Corrected(all[j].1, host) else all[j].1
  }

  ghost predicate Once(all: seq<(Id, Container)>) { forall i, j :: 0 <= i < j < |all| ==> all[i].0 != all[j].0 }

  /** Every row has a last write on record, now and in the listing. */
  ghost predicate Recorded(w: World, listing: Listing) {
    forall id :: id in w.table ==> id in w.writer && id in listing.last
  }

  function Query1(pid: nat, status: Option<Runtime>): Event { Act(pid, [], false, status, Done) }

  /** The awaits of one row: the query and, if the host's status asks for it, the write. */
  function RowEvents(pid: nat, row: (Id, Container), host: Host): seq<Event> {
    [Query1(pid, host(row.1.ctid))] + if OutOfDate(row.1, host) then [Query1(pid, None)] else []
  }

  function PassEvents(pid: nat, left: seq<(Id, Container)>, host: Host): seq<Event> {
    if left == [] then [Query1(pid, None)] else RowEvents(pid, left[0], host) + PassEvents(pid, left[1..], host)
  }

  lemma {:induction false} RunMore(w: World, es: seq<Event>, more: seq<Event>)
    ensures Run(w, es + more) == Run(Run(w, es), more)
  {
    hide Apply;
    if more == [] {
      assert es + more == es;
    } else {
      RunMore(w, es, more[..|more| - 1]);
      assert (es + more)[..|es + more| - 1] == es + more[..|more| - 1];
    }
  }

  /** One row: queried, and written exactly if out of date. */
  lemma RowSwept(w: World, pid: nat, row: (Id, Container), rest: seq<(Id, Container)>, listing: Listing, host: Host)
    requires pid in w.procs && w.procs[pid] == Query([row] + rest, listing)
    requires row.0 in w.table && w.table[row.0] == row.1 && Recorded(w, listing)
    ensures var after := Run(w, RowEvents(pid, row, host));
            && after.procs == w.procs[pid := Query(rest, listing)] && after.next == w.next && Recorded(after, listing)
            && after.table == w.table[row.0 := Corrected(row.1, host)]
  {
    hide Run, Decide;
    var query, write := Query1(pid, host(row.1.ctid)), Query1(pid, None);
    DecideCorrects(row.1, host);
    assert ([row] + rest)[1..] == rest;
    var asked := Apply(w, query);
    if OutOfDate(row.1, host) {
      RunFirst(w, query, [write]);
      RunOne(asked, write);
      var written := Apply(asked, write);
      assert written.procs == w.procs[pid := Query(rest, listing)];
    } else {
      assert RowEvents(pid, row, host) == [query];
      RunOne(w, query);
    }
  }

  lemma {:induction false} RowsSwept(w: World, pid: nat, all: seq<(Id, Container)>, i: nat, listing: Listing, host: Host)
    requires i <= |all| && pid in w.procs && w.procs[pid] == Query(all[i..], listing)
    requires Recorded(w, listing) && Once(all) && Swept(all, i, w.table, host)
    ensures var after := Run(w, PassEvents(pid, all[i..], host));
            after.procs == w.procs - {pid} && Swept(all, |all|, after.table, host) && after.table.Keys == w.table.Keys
    decreases |all| - i
  {
    hide Run, RowEvents, Recorded;
    if i == |all| {
      RunOne(w, Query1(pid, None));
    } else {
      var row := all[i];
      assert all[i..] == [row] + all[i + 1..];
      RowSwept(w, pid, row, all[i + 1..], listing, host);
      var one := Run(w, RowEvents(pid, row, host));
      RowsSwept(one, pid, all, i + 1, listing, host);
      RunMore(w, RowEvents(pid, row, host), PassEvents(pid, all[i + 1..], host));
      assert one.procs - {pid} == w.procs - {pid};
    }
  }

  /** The rows listed are the table, each once. */
  lemma RowsList(t: Table, ids: seq<Id>)
    requires ListsAll(t, ids)
    ensures Lists(Rows(t, ids), t, t.Keys) && Once(Rows(t, ids))
  {
    forall id | id in t
      ensures Listed(Rows(t, ids), id)
    {
      var i :| 0 <= i < |ids| && ids[i] == id;
      assert Rows(t, ids)[i].0 == id;
    }
  }

  /**
   * From every state of a run, a pass with nothing in between brings exactly the out-of-date rows to the host's state, in
   * whatever order they were listed, and leaves every other row and the other processes alone.
   */
  lemma PassAlone(es: seq<Event>, ids: seq<Id>, host: Host)
    requires ListsAll(Run(INIT, es).table, ids)
    ensures var w := Run(INIT, es);
            exists more :: Reconciled(w.table, Run(w, more).table, host) && Run(w, more).procs == w.procs
  {
    hide Run, ListsAll, Rows, Reconciled, Apply;
    var w := Run(INIT, es);
    InitOk();
    RunOk(INIT, es);
    RunKeepsHistory(es);
    HistoryWriters(w);
    var begun := Apply(w, Sync);
    var list := Act(w.next, ids, false, None, Done);
    var listed := Apply(begun, list);
    var all := Rows(w.table, ids);
    RowsList(w.table, ids);
    PassBegins(w, ids);
    RowsSwept(listed, w.next, all, 0, Listing(|w.log|, w.writer), host);
    assert all[0..] == all;
    var rest := PassEvents(w.next, all, host);
    RunFirst(w, Sync, [list] + rest);
    RunFirst(begun, list, rest);
    var after := Run(w, [Sync] + ([list] + rest));
    SweptReconciles(w.table, all, after.table, host);
    assert after.procs == w.procs;
  }

  lemma PassBegins(w: World, ids: seq<Id>)
    requires ListsAll(w.table, ids) && WorldOk(w) && WritersOk(w.table, w.log, w.writer)
    ensures var listed := Apply(Apply(w, Sync), Act(w.next, ids, false, None, Done));
            var listing := Listing(|w.log|, w.writer);
            && w.next !in w.procs && w.next in listed.procs && listed.procs - {w.next} == w.procs
            && listed.procs[w.next] == Query(Rows(w.table, ids), listing)
            && listed.table == w.table && Recorded(listed, listing)
            && forall host :: Swept(Rows(w.table, ids), 0, listed.table, host)
  {
    hide LastPut;
  }

  lemma SweptReconciles(t: Table, all: seq<(Id, Container)>, now: Table, host: Host)
    requires Lists(all, t, t.Keys) && now.Keys == t.Keys && Swept(all, |all|, now, host)
    ensures Reconciled(t, now, host)
  {
    forall id | id in t
      ensures now[id] == Corrected(t[id], host)
    {
      assert Listed(all, id);
      var i :| 0 <= i < |all| && all[i].0 == id;
    }
  }
}
