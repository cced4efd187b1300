/** The webhook repository with its generated UPDATE, and the service that checks, stores, logs and deploys. */
module WebhookService {
  import opened Basics
  import opened UpdateBuilder
  import opened Webhook
  import opened WebhookRuns
  import Answers = WebhookAnswers
  import Shell

  type Rows = map<Value, Row>

  type Configs = map<Id, Config>

  /** The table holds exactly these configurations. */
  ghost predicate Holds(rows: Rows, configs: Configs) {
    && (forall k :: k in rows ==> k.Key? && k.id in configs)
    && (forall id :: id in configs ==> Key(id) in rows && rows[Key(id)] == ToRow(configs[id]))
  }

  function WithUpdate(configs: Configs, id: Id, req: UpdateRequest, now: nat): Configs {
    if id in configs then configs[id := Updated(configs[id], req, now)] else configs
  }

  lemma HoldsUpdate(rows: Rows, configs: Configs, id: Id, req: UpdateRequest, now: nat)
    requires Holds(rows, configs)
    ensures Holds(if Key(id) in rows then rows[Key(id) := Overwrite(rows[Key(id)], UpdateFields(req, now))] else rows,
                  WithUpdate(configs, id, req, now))
  {
    hide Overwrite, ToRow, UpdateFields, Updated;
    if id in configs { OverwriteIsUpdated(configs[id], req, now); }
  }

  /** The two tables; each method is one statement, answered by `reply`. */
  class WebhookRepo {
    var rows: map<Value, Row>
    var deliveries: map<Id, Delivery>
    var issued: nat
    ghost var configs: Configs

    ghost predicate Valid() reads this { Holds(rows, configs) && forall id :: id in configs ==> id < issued }

    constructor ()
      ensures Valid() && configs == map[] && deliveries == map[] && issued == 0
    {
      rows, configs, deliveries, issued := map[], map[], map[], 0;
    }

    method CreateConfig(c: Config, reply: Reply) returns (ok: bool)
      requires Valid()
      modifies this
      ensures Valid() && ok == reply.Done? && deliveries == old(deliveries)
      ensures reply == Fail(false) ==> configs == old(configs) && issued == old(issued)
      ensures reply != Fail(false) ==> configs == old(configs)[old(issued) := c] && issued == old(issued) + 1
    {
      hide ToRow;
      if reply != Fail(false) {
        rows, configs := rows[Key(issued) := ToRow(c)], configs[issued := c];
        issued := issued + 1;
      }
      ok := reply.Done?;
    }

    /** SELECT by the primary key. */
    method GetConfig(id: Id) returns (found: Option<Config>)
      requires Valid()
      ensures found == if id in configs then Some(configs[id]) else None
    {
      if Key(id) in rows {
        RowRoundTrip(configs[id]);
        found := Some(FromRow(rows[Key(id)]));
      } else {
        found := None;
      }
    }

    /** One step of the first pass: pushes an assignment and moves the counter if the field is given. */
    method Push(sets: seq<Assignment<Column>>, idx: nat, column: Column, field: Option<string>, ghost done: Fields<Column, Value>)
      returns (sets': seq<Assignment<Column>>, idx': nat)
      requires sets == Sets(done, 1) && idx == 1 + |Binds(done)|
      ensures var more := done + [(column, TextOf(field))]; sets' == Sets(more, 1) && idx' == 1 + |Binds(more)|
    {
      hide Sets, Binds;
      SetsSnoc(done, (column, TextOf(field)), 1);
      sets', idx' := sets, idx;
      if field.Some? {
        sets' := sets' + [Assignment(column, idx')];
        idx' := idx' + 1;
      }
    }

    /** One step of the second pass. */
    method Bind(binds: seq<Value>, field: Option<string>, ghost column: Column, ghost done: Fields<Column, Value>)
      returns (binds': seq<Value>)
      requires binds == Binds(done)
      ensures binds' == Binds(done + [(column, TextOf(field))])
    {
      hide Sets, Binds;
      SetsSnoc(done, (column, TextOf(field)), 1);
      binds' := binds;
      if field.Some? { binds' := binds' + [Text(field.value)]; }
    }

    /** Grows the assignment list with a running placeholder number, then binds the values in a second pass. */
    method BuildUpdate(id: Id, req: UpdateRequest, now: nat) returns (stmt: Statement<Column>, binds: seq<Value>)
      ensures stmt == Build(UpdateFields(req, now)) && binds == Binds(UpdateFields(req, now)) + [Key(id)]
    {
      hide Sets, Binds;
      ghost var f := UpdateFields(req, now);
      Nothing();
      assert f[..1] == f[..0] + [f[0]] && f[..2] == f[..1] + [f[1]] && f[..3] == f[..2] + [f[2]];
      assert f[..4] == f[..3] + [f[3]] && f[..5] == f[..4] + [f[4]] && f == f[..5] + [f[5]];
      var sets, idx := [], 1;
      sets, idx := Push(sets, idx, Provider, req.provider, f[..0]);
      sets, idx := Push(sets, idx, WebhookSecret, req.secret, f[..1]);
      sets, idx := Push(sets, idx, Branch, req.branch, f[..2]);
      sets, idx := Push(sets, idx, WorkingDir, req.dir, f[..3]);
      sets, idx := Push(sets, idx, PostPullCmd, req.cmd, f[..4]);
      SetsSnoc(f[..5], f[5], 1);
      sets := sets + [Assignment(UpdatedAt, idx)];
      idx := idx + 1;
      stmt := Statement(sets, idx);

      binds := [];
      binds := Bind(binds, req.provider, Provider, f[..0]);
      binds := Bind(binds, req.secret, WebhookSecret, f[..1]);
      binds := Bind(binds, req.branch, Branch, f[..2]);
      binds := Bind(binds, req.dir, WorkingDir, f[..3]);
      binds := Bind(binds, req.cmd, PostPullCmd, f[..4]);
      binds := binds + [Time(now)];
      binds := binds + [Key(id)];
    }

    lemma Nothing()
      ensures var none: Fields<Column, Value> := []; Sets(none, 1) == [] && Binds(none) == []
    {
    }

    /** Exactly the named configuration takes the provided fields and the update time. */
    method UpdateConfig(id: Id, req: UpdateRequest, now: nat, reply: Reply) returns (ok: bool)
      requires Valid()
      modifies this
      ensures Valid() && ok == reply.Done? && deliveries == old(deliveries) && issued == old(issued)
      ensures configs == if reply == Fail(false) then old(configs) else WithUpdate(old(configs), id, req, now)
    {
      hide Sets, Binds, Assign, Overwrite, Holds, ToRow, UpdateFields;
      var stmt, binds := BuildUpdate(id, req, now);
      BuiltUpdate(rows, UpdateFields(req, now), Key(id));
      HoldsUpdate(rows, configs, id, req, now);
      if reply != Fail(false) {
        rows, configs := Execute(rows, stmt, binds), WithUpdate(configs, id, req, now);
      }
      ok := reply.Done?;
    }

    /** Deleting a configuration deletes its deliveries with it. */
    method DeleteConfig(id: Id, reply: Reply) returns (ok: bool)
      requires Valid()
      modifies this
      ensures Valid() && ok == reply.Done? && issued == old(issued)
      ensures reply == Fail(false) ==> configs == old(configs) && deliveries == old(deliveries)
      ensures reply != Fail(false) ==>
                && configs == old(configs) - {id}
                && deliveries == map d | d in old(deliveries) && old(deliveries)[d].webhook != id :: old(deliveries)[d]
    {
      hide ToRow;
      if reply != Fail(false) {
        rows, configs := rows - {Key(id)}, configs - {id};
        deliveries := map d | d in deliveries && deliveries[d].webhook != id :: deliveries[d];
      }
      ok := reply.Done?;
    }

    /** INSERT of a pending delivery; refused if the configuration it refers to is gone. */
    method CreateDelivery(webhook: Id, push: WebhookRuns.Push, reply: Reply) returns (row: Option<Id>)
      requires Valid()
      modifies this`deliveries, this`issued
      ensures Valid()
      ensures reply == Fail(false) || webhook !in configs ==> deliveries == old(deliveries) && issued == old(issued)
      ensures reply != Fail(false) && webhook in configs ==>
                deliveries == old(deliveries)[old(issued) := Delivery(webhook, push, Pending, None, false)] && issued == old(issued) + 1
      ensures row == if reply.Done? && webhook in configs then Some(old(issued)) else None
    {
      row := None;
      if reply != Fail(false) && Key(webhook) in rows {
        deliveries := deliveries[issued := Delivery(webhook, push, Pending, None, false)];
        if reply.Done? { row := Some(issued); }
        issued := issued + 1;
      }
    }

    method UpdateDeliveryStatus(d: Id, status: Status, error: Option<string>, completed: bool, reply: Reply) returns (ok: bool)
      modifies this`deliveries
      ensures deliveries == if reply != Fail(false) && d in old(deliveries)
                            then old(deliveries)[d := old(deliveries)[d].(status := status, error := error, completed := completed)]
                            else old(deliveries)
      ensures ok == reply.Done?
    {
      if reply != Fail(false) && d in deliveries {
        deliveries := deliveries[d := deliveries[d].(status := status, error := error, completed := completed)];
      }
      ok := reply.Done?;
    }
  }

  /** The shell on the host; `ran` is the history of commands sent. */
  class TerminalService {
    ghost var ran: seq<Ran>

    constructor ()
      ensures ran == []
    {
      ran := [];
    }

    method ExecCommand(cmd: string, answer: Exit, ghost d: Id, ghost webhook: Id, ghost push: WebhookRuns.Push, ghost config: Config)
      returns (exit: Exit)
      modifies this
      ensures ran == old(ran) + [Ran(d, webhook, cmd, push, config)] && exit == answer
    {
      ran := ran + [Ran(d, webhook, cmd, push, config)];
      exit := answer;
    }
  }

  /** What a delivery's background task starts with. */
  datatype Job = Job(delivery: Id, webhook: Id, config: Config, push: WebhookRuns.Push)

  class WebhookManager {
    const repo: WebhookRepo
    const terminal: TerminalService

    constructor (repo: WebhookRepo, terminal: TerminalService)
      ensures this.repo == repo && this.terminal == terminal
    {
      this.repo, this.terminal := repo, terminal;
    }

    /** Every stored configuration passes every check. */
    ghost predicate Valid() reads repo { repo.Valid() && ConfigsOk(repo.configs) }

    ghost function Now(): State reads repo, terminal { State(repo.configs, repo.deliveries, repo.issued, terminal.ran) }

    twostate predicate Performed(req: Request, replies: nat -> Reply, exit: Exit, answer: Answer)
      reads repo, terminal
    {
      Answers.Final(Now(), answer) == Answers.Perform(old(Now()), req, replies, exit)
    }

    method CreateConfig(mayUse: bool, container: Id, req: CreateRequest, now: nat, replies: nat -> Reply, ghost exit: Exit)
      returns (answer: Answer)
      requires Valid()
      modifies repo
      ensures Valid() && Performed(WebhookRuns.CreateConfig(mayUse, container, req, now), replies, exit, answer)
    {
      hide ConfigOk, ValidateCreate, Holds, Answers.Finish;
      Answers.Advance(Now(), Permit(mayUse, container, req, now), replies, exit);
      if replies(0).Fail? { return Internal; }
      if !mayUse { return Forbidden; }
      if ValidateCreate(req).Some? { return Validation; }

      var cfg := Config(container, req.provider, req.secret, req.branch, req.dir, req.cmd, now, now);
      CreateIsOk(container, req, now);
      Answers.Advance(Now(), Store(cfg), replies, exit);
      var stored := repo.CreateConfig(cfg, replies(1));
      return if stored then Success else Internal;
    }

    method UpdateConfig(mayUse: bool, id: Id, req: UpdateRequest, now: nat, replies: nat -> Reply, ghost exit: Exit)
      returns (answer: Answer)
      requires Valid()
      modifies repo
      ensures Valid() && Performed(WebhookRuns.UpdateConfig(mayUse, id, req, now), replies, exit, answer)
    {
      hide ConfigOk, ValidateUpdate, Holds, Updated, Answers.Finish;
      Answers.Advance(Now(), LoadForUpdate(mayUse, id, req, now), replies, exit);
      if replies(0).Fail? { return Internal; }
      var cfg := repo.GetConfig(id);
      if cfg.None? { return NotFound; }
      if !mayUse { return Forbidden; }
      if ValidateUpdate(req).Some? { return Validation; }

      UpdateKeepsOk(repo.configs[id], req, now);
      Answers.Advance(Now(), Write(id, req, now), replies, exit);
      var written := repo.UpdateConfig(id, req, now, replies(1));
      if !written { return Internal; }

      Answers.Advance(Now(), Refresh(id), replies, exit);
      if replies(2).Fail? { return Internal; }
      var refreshed := repo.GetConfig(id);
      return if refreshed.Some? then Success else NotFound;
    }

    method DeleteConfig(mayUse: bool, id: Id, replies: nat -> Reply, ghost exit: Exit) returns (answer: Answer)
      requires Valid()
      modifies repo
      ensures Valid() && Performed(WebhookRuns.DeleteConfig(mayUse, id), replies, exit, answer)
    {
      hide ConfigOk, Holds, Answers.Finish;
      Answers.Advance(Now(), LoadForDelete(mayUse, id), replies, exit);
      if replies(0).Fail? { return Internal; }
      var cfg := repo.GetConfig(id);
      if cfg.None? { return NotFound; }
      if !mayUse { return Forbidden; }

      Answers.Advance(Now(), Erase(id), replies, exit);
      var erased := repo.DeleteConfig(id, replies(1));
      return if erased then Success else Internal;
    }

    /** Logs the event and skips it or hands it to a background task; the sender is answered before that task runs. */
    method HandleIncoming(id: Id, known: bool, push: Option<WebhookRuns.Push>, there: bool, replies: nat -> Reply, ghost exit: Exit)
      returns (answer: Answer, job: Option<Job>)
      requires Valid()
      modifies repo
      ensures Valid()
      ensures job.None? ==> Performed(Incoming(id, known, push, there), replies, exit, answer)
      ensures job.Some? ==>
                && answer == Success && ConfigOk(job.value.config)
                && Answers.Perform(old(Now()), Incoming(id, known, push, there), replies, exit) ==
                   Answers.Finish(Now(), Continue(Deploy(job.value.delivery, job.value.webhook, job.value.config, job.value.push)),
                                  replies, exit)
    {
      hide ConfigOk, Holds, Answers.Finish;
      job := None;
      Answers.Advance(Now(), LoadConfig(id, known, push, there), replies, exit);
      if replies(0).Fail? { return Internal, None; }
      var found := repo.GetConfig(id);
      if found.None? { return NotFound, None; }
      if !known { return BadRequest, None; }
      if push.None? { return Unauthorized, None; }
      var config, event := found.value, push.value;

      Answers.Advance(Now(), LogDelivery(id, config, event, there), replies, exit);
      var row := repo.CreateDelivery(id, event, replies(1));
      if row.None? { return Internal, None; }
      var d := row.value;

      if event.ping {
        answer := SkipDelivery(d, id, config, event, replies, exit);
        return answer, None;
      }
      if event.branch != config.branch {
        answer := SkipDelivery(d, id, config, event, replies, exit);
        return answer, None;
      }

      answer, job := StartDeployment(d, id, config, event, there, replies, exit);
    }

    /** Loads the container, marks the delivery running and hands the configuration as loaded to the background task. */
    method StartDeployment(d: Id, id: Id, config: Config, event: WebhookRuns.Push, there: bool, replies: nat -> Reply, ghost exit: Exit)
      returns (answer: Answer, job: Option<Job>)
      requires Valid() && ConfigOk(config)
      modifies repo`deliveries
      ensures Valid() && (job.Some? ==> answer == Success && job.value == Job(d, id, config, event))
      ensures Answers.Finish(old(Now()), Continue(LoadContainer(d, id, config, event, there)), replies, exit) ==
              if job.None? then Answers.Final(Now(), answer) else Answers.Finish(Now(), Continue(Deploy(d, id, config, event)), replies, exit)
    {
      hide ConfigOk, Holds, Answers.Finish;
      Answers.Advance(Now(), LoadContainer(d, id, config, event, there), replies, exit);
      if replies(2).Fail? { return Internal, None; }
      if !there { return NotFound, None; }

      Answers.Advance(Now(), MarkRunning(d, id, config, event), replies, exit);
      var marked := repo.UpdateDeliveryStatus(d, Running, None, false, replies(3));
      if !marked { return Internal, None; }
      return Success, Some(Job(d, id, config, event));
    }

    method SkipDelivery(d: Id, id: Id, config: Config, event: WebhookRuns.Push, replies: nat -> Reply, ghost exit: Exit)
      returns (answer: Answer)
      requires Valid()
      modifies repo`deliveries
      ensures Valid()
      ensures Answers.Final(Now(), answer) == Answers.Finish(old(Now()), Continue(Skip(d, id, config, event)), replies, exit)
    {
      hide ConfigsOk, Holds, Answers.Finish;
      Answers.Advance(Now(), Skip(d, id, config, event), replies, exit);
      var skipped := repo.UpdateDeliveryStatus(d, Skipped, None, false, replies(2));
      return if skipped then Success else Internal;
    }

    /** The background task: runs the command of the configuration as loaded and records how it ended. */
    method RunDeployment(job: Job, replies: nat -> Reply, exit: Exit)
      requires Valid() && ConfigOk(job.config)
      modifies repo, terminal
      ensures Valid()
      ensures Answers.Final(Now(), Success) ==
              Answers.Finish(old(Now()), Continue(Deploy(job.delivery, job.webhook, job.config, job.push)), replies, exit)
      ensures |terminal.ran| == |old(terminal.ran)| + 1 && terminal.ran[..|old(terminal.ran)|] == old(terminal.ran)
      ensures Shell.Tokens(terminal.ran[|terminal.ran| - 1].command, 3) ==
                Some(([Shell.Word("cd"), Shell.Word(job.config.dir), Shell.AndIf], " " + job.config.cmd))
    {
      hide Shell.Tokens, Answers.Finish, Holds;
      var cmd := "cd '" + job.config.dir + "' && " + job.config.cmd;
      Shell.DeployTokens(job.config.dir, job.config.cmd);
      Answers.Advance(Now(), Deploy(job.delivery, job.webhook, job.config, job.push), replies, exit);
      var output := terminal.ExecCommand(cmd, exit, job.delivery, job.webhook, job.push, job.config);
      Answers.Advance(Now(), Report(job.delivery, StatusOf(exit), ErrorOf(exit)), replies, exit);
      if output.Exited? && output.code == 0 {
        var _ := repo.UpdateDeliveryStatus(job.delivery, Succeeded, None, true, replies(5));
      } else {
        var _ := repo.UpdateDeliveryStatus(job.delivery, Failed, Some(output.message), true, replies(5));
      }
    }

    /** An incoming event and the task it starts, with nothing in between. */
    method Deliver(id: Id, known: bool, push: Option<WebhookRuns.Push>, there: bool, replies: nat -> Reply, exit: Exit)
      returns (answer: Answer)
      requires Valid()
      modifies repo, terminal
      ensures Valid() && Performed(Incoming(id, known, push, there), replies, exit, answer)
    {
      var job;
      answer, job := HandleIncoming(id, known, push, there, replies, exit);
      if job.Some? { RunDeployment(job.value, replies, exit); }
    }
  }
}
