/** Creating, starting, stopping and restarting a container: the state recorded is the one the poll confirmed. */
module Lifecycle {
  import opened Basics
  import Polling
  import StateSync

  type Id = nat

  datatype Operation = Start | Stop | Restart

  /** What the host answers during one operation: the command's success, and the polls' answers against the clock. */
  datatype Host = Host(accepts: bool, answer: nat -> Option<Polling.Runtime>, now: Polling.Clock, begin: nat)

  ghost predicate HostOk(h: Host) { Polling.Sleeps(h.now, h.begin, 2_000) }

  /** Some query in time, with no error before it, reported `wanted`. */
  ghost predicate Confirmed(h: Host, wanted: Polling.Runtime) {
    exists k: nat :: Polling.Observed(h.answer, h.now, h.begin, wanted, k)
  }

  function Wanted(op: Operation): Polling.Runtime {
    match op
    case Start => Polling.Running
    case Stop => Polling.Stopped
    case Restart => Polling.Running
  }

  function Target(op: Operation): StateSync.State {
    match op
    case Start => StateSync.Running
    case Stop => StateSync.Stopped
    case Restart => StateSync.Running
  }

  datatype Answer = Success | Internal | NotFound | Forbidden | ProxmoxError

  /** `sent` is the history of commands for the host's containers. */
  class ContainerService {
    const repo: StateSync.ContainerRepo
    var issued: nat
    ghost var sent: seq<(Operation, int)>

    ghost predicate Valid() reads this, repo { forall id :: id in repo.rows ==> id < issued }

    constructor (repo: StateSync.ContainerRepo)
      requires repo.rows == map[]
      ensures Valid() && this.repo == repo && sent == []
    {
      this.repo, issued, sent := repo, 0, [];
    }

    /** The row is inserted as provisioning before the host is asked to start; the row ends running or failed. */
    method Create(ctid: Option<int>, host: Host, inserted: Reply, updated: Reply, refreshed: Reply) returns (answer: Answer)
      requires Valid() && HostOk(host)
      modifies this`issued, this`sent, repo
      ensures Valid()
      ensures answer == if ctid.None? then ProxmoxError
                        else if inserted.Done? && updated.Done? && refreshed.Done? then Success else Internal
      ensures ctid.None? || inserted == Fail(false) ==> repo.rows == old(repo.rows) && sent == old(sent)
      ensures ctid.Some? && inserted == Fail(true) ==>
                repo.rows == old(repo.rows)[old(issued) := StateSync.Container(ctid.value, StateSync.Provisioning)] && sent == old(sent)
      ensures ctid.Some? && inserted.Done? ==>
                var state := if updated == Fail(false) then StateSync.Provisioning
                             else if host.accepts && Confirmed(host, Polling.Running) then StateSync.Running else StateSync.Failed;
                repo.rows == old(repo.rows)[old(issued) := StateSync.Container(ctid.value, state)]
                && sent == old(sent) + [(Start, ctid.value)]
    {
      if ctid.None? { return ProxmoxError; }
      if inserted == Fail(false) { return Internal; }
      var id := issued;
      repo.rows := repo.rows[id := StateSync.Container(ctid.value, StateSync.Provisioning)];
      issued := issued + 1;
      if inserted.Fail? { return Internal; }
      var state := StateSync.Failed;
      sent := sent + [(Start, ctid.value)];
      if host.accepts {
        var seen, _ := Polling.PollForState(host.answer, host.now, host.begin, Polling.Running);
        if seen == Polling.Running { state := StateSync.Running; }
      }
      var ok := repo.UpdateState(id, state, updated);
      if !ok || refreshed.Fail? { return Internal; }
      return Success;
    }

    /**
     * Nothing is sent or written unless both permissions are there; nothing is written unless the host takes the command.
     * Then a start or restart records running if the poll confirmed it and failed if not, a stop likewise stopped or failed.
     * Await k on the database is answered by `replies(k)`: the row, both permissions, the update, the refreshed row.
     */
    method Act(op: Operation, id: Id, mayView: bool, mayStartStop: bool, host: Host, replies: nat -> Reply) returns (answer: Answer)
      requires Valid() && HostOk(host)
      modifies this`sent, repo
      ensures Valid()
      ensures answer == if replies(0).Fail? then Internal
                        else if id !in old(repo.rows) then NotFound
                        else if replies(1).Fail? then Internal
                        else if !mayView then Forbidden
                        else if replies(2).Fail? then Internal
                        else if !mayStartStop then Forbidden
                        else if !host.accepts then ProxmoxError
                        else if replies(3).Fail? || replies(4).Fail? then Internal
                        else Success
      ensures var through := replies(0).Done? && id in old(repo.rows) && replies(1).Done? && mayView && replies(2).Done? && mayStartStop;
              && sent == (if through then old(sent) + [(op, old(repo.rows)[id].ctid)] else old(sent))
              && (!through || !host.accepts || replies(3) == Fail(false) ==> repo.rows == old(repo.rows))
              && (through && host.accepts && replies(3) != Fail(false) && op.Stop? ==>
                    repo.rows == old(repo.rows)[id := old(repo.rows)[id].(
                      state := if Confirmed(host, Polling.Stopped) then StateSync.Stopped else StateSync.Failed)])
              && (through && host.accepts && replies(3) != Fail(false) && !op.Stop? ==>
                    repo.rows == old(repo.rows)[id := old(repo.rows)[id].(
                      state := if Confirmed(host, Polling.Running) then StateSync.Running else StateSync.Failed)])
    {
      if replies(0).Fail? { return Internal; }
      if id !in repo.rows { return NotFound; }
      if replies(1).Fail? { return Internal; }
      if !mayView { return Forbidden; }
      if replies(2).Fail? { return Internal; }
      if !mayStartStop { return Forbidden; }
      sent := sent + [(op, repo.rows[id].ctid)];
      if !host.accepts { return ProxmoxError; }
      var seen, _ := Polling.PollForState(host.answer, host.now, host.begin, Wanted(op));
      var state := if seen == Wanted(op) then Target(op) else StateSync.Failed;
      var ok := repo.UpdateState(id, state, replies(3));
      if !ok || replies(4).Fail? { return Internal; }
      return Success;
    }
  }
}
